# Suburban Security dashboard: a verified model of its logic

Suburban Security is a web front end for a security-services company. It has
a marketing site with a generative-art hero and a testimonial carousel, sign-up
and sign-in pages backed by a mock authentication store, and an operations
portfolio. The portfolio has a site sidebar, KPI cards, gauges, charts, a live
activity feed, data tables and "create site" and "create account" forms.

This project models the parts of that front end that compute something, as
Dafny functions, methods and classes, and proves what they promise:

- **Generative art** (`generative_art.dfy`): the canvas boundary, the point
  generators and permutations, the clamped velocity walks, the scene table, and
  the frame-id bookkeeping of the animation loop with its scroll, click and
  cleanup handlers.
- **Authentication** (`auth_context.dfy`, `signup_page.dfy`):
  - the stored-session check and the demo-credential login;
  - signup's validation cascade and its duplicate-email scan;
  - logout;
  - the password-strength meter and the sign-up page's submit order.
- **Forms** (`create_site_modal.dfy`, `create_account_modal.dfy`): the two form
  validators with their phone and email patterns, and the change and submit
  handlers.
- **Portfolio shell and widgets**:
  - the site search and filter, page titles, initials and the auth gate
    (`portfolio_layout.dfy`);
  - the high-priority widget (`high_priority_sites.dfy`) and site cards
    (`site_card.dfy`);
  - the activity feed's relative times (`activity_ticker.dfy`) and the greeting
    and shift (`dashboard_content.dfy`);
  - the KPI cards (`kpi_card.dfy`), the health gauge (`health_gauge.dfy`) and
    the financial score cards (`financial_score_cards.dfy`).
- **Charts** (`chart.dfy` shared): `sparkline.dfy`, `activity_trend.dfy`,
  `arr_donut.dfy`, and the analytics page (`analytics_content.dfy`), which has
  the compliance semicircle, the sector bars and the events trend.
- **Data table** (`data_table.dfy`): row keys, the empty state, cell text and
  keyboard activation.

Shared modules:
- `Optional`: the Option type.
- `Text`: ASCII character classes, trimming, one-character `split`, and
  decimal rendering of integers.
- `PortfolioTypes`: the `Site` record.
- `CompactNumber`: the money formatters' unit choice.
- `Chart`: points, path commands, and the affine map into a plot box.

JavaScript numbers are modelled as exact `real`s. Counts, ids and day numbers
are modelled as `int`/`nat`. Randomness, the clock, storage and generated ids
are parameters.

## Model

| member | source | states |
|---|---|---|
| GenerativeArt.CanvasSize | src/components/ui/generative-art.tsx:71-78 | without a window 800 x 600; with one, the larger of 320 and the window width less 60, by the larger of 400 and 0.6 of its height |
| GenerativeArt.GetBoundary | src/components/ui/generative-art.tsx:86-102 | edges 0, width, 0, height; xMin = 0.05·width, xMax = 0.95·width, xMid = width/2, yMin = 0.2·height, yMax = 0.8·height, yMid = height/2; ordered inside the canvas for non-negative sizes |
| GenerativeArt.GetNs | src/components/ui/generative-art.tsx:105-107 | exactly n entries, all equal to v |
| GenerativeArt.Linspace | src/components/ui/generative-art.tsx:126-144 | the n points of the linspace generator, point k being k steps from (xMin, yMin) |
| GenerativeArt.RndYLinspace | src/components/ui/generative-art.tsx:109-124 | the n points of the random-y generator for the given draws |
| GenerativeArt.Step | src/components/ui/generative-art.tsx:117-135 | n steps span hi − lo; zero for equal ends, positive for rising ends |
| GenerativeArt.GetLinspaceYLinspaceX | src/components/ui/generative-art.tsx:126-144 | the accumulating loop yields exactly the n-point linspace, point k being k steps from (xMin, yMin) |
| GenerativeArt.GetRndYLinspaceX | src/components/ui/generative-art.tsx:109-124 | the loop yields x as in the linspace and y = yMin + r_k·(yMax − yMin) for the k-th draw |
| GenerativeArt.LinspaceFlat | src/components/ui/generative-art.tsx:126-144 | with yMin = yMax every point has that y |
| GenerativeArt.LinspaceLast | src/components/ui/generative-art.tsx:136-142 | the last point stops one step short of xMax |
| GenerativeArt.LinspaceXIncreasing | src/components/ui/generative-art.tsx:136-142 | with xMin < xMax the x values strictly increase and stay in [xMin, xMax) |
| GenerativeArt.RndYInRange | src/components/ui/generative-art.tsx:120 | draws in [0, 1) put every y in [yMin, yMax) |
| GenerativeArt.ScaledDraw | src/components/ui/generative-art.tsx:120 | a draw in [0, 1) scales into [yMin, yMax) |
| GenerativeArt.Permute | src/components/ui/generative-art.tsx:179-181 | same length; with draws in [0, 1) every value moves by at most the noise |
| GenerativeArt.PermuteY | src/components/ui/generative-art.tsx:172-177 | same length, every x kept, every y within the noise of the old y |
| GenerativeArt.Limit | src/components/ui/generative-art.tsx:183-185 | result in [mi, ma] when mi ≤ ma; v itself when already in range; ma above, mi below; mi when the bounds cross |
| GenerativeArt.MapExposeY | src/components/ui/generative-art.tsx:400-404 | the map with the running sum s yields each point moved down by the prefix sum of velocities and clamped to [yt, yb] |
| GenerativeArt.MapExposeXY | src/components/ui/generative-art.tsx:440-449 | the map with running sums sx, sy yields each point moved by its prefix sums and clamped to the canvas |
| GenerativeArt.ExposeY | src/components/ui/generative-art.tsx:401-404 | point i moves down by the first i + 1 velocities and is clamped to [yt, yb]; x is kept |
| GenerativeArt.ExposeXY | src/components/ui/generative-art.tsx:442-449 | point i moves by its running x and y sums, clamped to the canvas |
| GenerativeArt.ExposeYStaysOnCanvas | src/components/ui/generative-art.tsx:403 | the 1-D walk keeps length and every x and holds every y in [0, height] |
| GenerativeArt.ExposeXYStaysOnCanvas | src/components/ui/generative-art.tsx:445-448 | the 2-D walk keeps length and holds every point on the canvas |
| GenerativeArt.ExposeXYAtRest | src/components/ui/generative-art.tsx:442-449 | a point on the canvas with zero running sums does not move |
| GenerativeArt.FloorNat | src/components/ui/generative-art.tsx:286 | Math.floor of a non-negative value: n ≤ v < n + 1 |
| GenerativeArt.UniformScene.Single | src/components/ui/generative-art.tsx:211-241 | one point, 30 frames, the resting and target paths at the centre column |
| GenerativeArt.UniformScene.Multi | src/components/ui/generative-art.tsx:274-304 | floor(width/20) points, 120 frames, paths across [xMin, xMax] |
| GenerativeArt.UniformScene.Frame | src/components/ui/generative-art.tsx:243-258 | the frame counter advances; on a multiple of the frame count the target becomes the rest and a fresh random target is drawn, otherwise both paths are kept |
| GenerativeArt.LocalScene.constructor | src/components/ui/generative-art.tsx:349-360 | floor(width/20) points on the mid-line linspace |
| GenerativeArt.LocalScene.Frame | src/components/ui/generative-art.tsx:362-368 | the path is the y-permutation of the old path with noise 2 |
| GenerativeArt.XVelScene.constructor | src/components/ui/generative-art.tsx:384-396 | floor(width) points on the mid line and zero velocities |
| GenerativeArt.XVelScene.Frame | src/components/ui/generative-art.tsx:398-406 | velocities permuted with noise 0.01, then the 1-D walk applied with the new velocities |
| GenerativeArt.XYVelScene.Frame | src/components/ui/generative-art.tsx:437-451 | both velocity lists permuted, then the 2-D walk applied |
| GenerativeArt.XYVelScene.constructor | src/components/ui/generative-art.tsx:422-436 | the canvas boundary, the initial points and zero velocities, one per point |
| GenerativeArt.CreateXYVelExpose | src/components/ui/generative-art.tsx:409-436 | the 2-D walk starts from the floor(width)-point mid-line linspace with zero velocities |
| GenerativeArt.ParseSceneName | src/components/ui/generative-art.tsx:28-35 | a name parses to the scene whose name it is, and to nothing when no scene has that name |
| GenerativeArt.ParseSceneNameRoundTrip | src/components/ui/generative-art.tsx:28-35 | every scene's name reads back as that scene |
| GenerativeArt.FactoryFor | src/components/ui/generative-art.tsx:535-552 | a factory exactly for the seven scene names, namely that scene's own |
| GenerativeArt.FactoriesDistinct | src/components/ui/generative-art.tsx:544-552 | the table is one-to-one |
| GenerativeArt.CanvasIdInjective | src/components/ui/generative-art.tsx:619 | different scene names give different canvas ids |
| GenerativeArt.FrameBook.AtMostOnePending | src/components/ui/generative-art.tsx:602-657 | with no orphaned frame each canvas has at most one pending frame |
| GenerativeArt.FrameBook.constructor | src/components/ui/generative-art.tsx:587-589 | all maps empty, nothing pending |
| GenerativeArt.FrameBook.AnimLoop | src/components/ui/generative-art.tsx:602-612 | requests a new frame, records its id for the canvas, runs the step once; no orphan is created when the canvas had no recorded frame |
| GenerativeArt.FrameBook.RunFrame | src/components/ui/generative-art.tsx:607-609 | a firing frame re-enters animloop for its canvas and keeps the no-orphan invariant |
| GenerativeArt.FrameBook.Stop | src/components/ui/generative-art.tsx:662-682 | cancels and forgets the canvas's recorded frame, if any, and nothing else |
| GenerativeArt.FrameBook.CancelFrames | src/components/ui/generative-art.tsx:716-720 | cancels every recorded frame and forgets them all; nothing else changes |
| GenerativeArt.FrameBook.Scroll | src/components/ui/generative-art.tsx:653-668 | starts the loop when the canvas comes into view without one, stops it when it leaves with one, else nothing |
| GenerativeArt.FrameBook.InitializeCanvas | src/components/ui/generative-art.tsx:615-700 | the new bookkeeping is `Initialized` of the old: unchanged without container or context; otherwise two fresh handler ids recorded and attached, and when in view a first frame requested for the canvas and its step run |
| GenerativeArt.FrameBook.StartCanvas | src/components/ui/generative-art.tsx:689-699 | past both early returns: the new bookkeeping is `Initialized` for a found container and context |
| GenerativeArt.FrameBook.RecordHandlers | src/components/ui/generative-art.tsx:689-690 | both handlers stored for the canvas under the next two ids; nothing else changes |
| GenerativeArt.FrameBook.AttachListeners | src/components/ui/generative-art.tsx:698-699 | the scroll and click listeners attached under their ids; nothing else changes |
| GenerativeArt.FrameBook.Click | src/components/ui/generative-art.tsx:671-686 | the whole new state is `Initialized` of `Detached` of the old: both old listeners detached and the canvas's frame cancelled and forgotten, then the scene initialised again; keeps the no-orphan invariant |
| GenerativeArt.FrameBook.DetachClick | src/components/ui/generative-art.tsx:671-682 | the new bookkeeping is `Detached` of the old, and the scene to rebuild is the listener's |
| GenerativeArt.ClickReplaces | src/components/ui/generative-art.tsx:671-686 | after a click the old frame is no longer pending and the old listeners are gone; with container and context the canvas has fresh handlers attached, and a fresh frame (and one more entry in the run log) exactly when in view; every other canvas keeps its frame and handlers |
| GenerativeArt.FrameBook.Mount | src/components/ui/generative-art.tsx:703-709 | the new bookkeeping is `Mounted` of the old (each listed scene with a factory initialised, in order); every scene that starts has both handlers recorded; the steps run are exactly `Running`; only listed canvases gain frames; distinct scenes from an empty book leave no orphan |
| GenerativeArt.FrameBook.MountScene | src/components/ui/generative-art.tsx:704-708 | one scene of the `forEach`: the bookkeeping takes one `MountStep`; only that canvas can gain a frame |
| GenerativeArt.FrameBook.Cleanup | src/components/ui/generative-art.tsx:712-736 | every recorded frame cancelled and every recorded listener detached, the three maps cleared; with no orphans nothing stays pending |
| GenerativeArt.Initialized | src/components/ui/generative-art.tsx:615-700 | initializeCanvas on the bookkeeping value: unchanged without container or context, else two fresh handler ids recorded and attached and, in view, a first frame and step |
| GenerativeArt.Mounted | src/components/ui/generative-art.tsx:703-709 | the effect on the bookkeeping value: each listed scene with a factory initialised, in order |
| GenerativeArt.MountedRecordsHandlers | src/components/ui/generative-art.tsx:689-690 | after the mount every scene that gets past both early returns has a scroll and a click handler on record |
| GenerativeArt.MountedRuns | src/components/ui/generative-art.tsx:693-695 | the mount runs one scene step per started scene in view, in the order of the list, and no other |
| GenerativeArt.MountedLeavesOthers | src/components/ui/generative-art.tsx:703-709 | the frame and handler records of a canvas no started scene names are left exactly as they were |
| GenerativeArt.IsInViewport | src/components/ui/generative-art.tsx:80-84 | the container's vertical midpoint lies strictly between 0 and the window height, or the client height when that is 0 |
| GenerativeArt.ViewportBand | src/components/ui/generative-art.tsx:80-84 | a container wholly inside the band is in view, one wholly above or below it is not; a zero window height uses the client height |
| AuthContext.Encode | src/contexts/auth-context.tsx:95 | the stored user is an object with id and email |
| AuthContext.DecodeUser | src/contexts/auth-context.tsx:32-34 | accepts exactly objects with string id and email, and keeps them |
| AuthContext.DecodeEncode | src/contexts/auth-context.tsx:32-34 | a stored user reads back as itself |
| AuthContext.ReadStoredUser | src/contexts/auth-context.tsx:25-43 | missing or empty slot gives no user and no change; a valid entry gives its user; anything else gives no user and removes the slot |
| AuthContext.FindCredential | src/contexts/auth-context.tsx:82-84 | found iff some credential matches case-insensitively on email and exactly on password, and then the first such |
| AuthContext.AdminLogin | src/contexts/auth-context.tsx:77-84 | the admin email in any case with "admin123" finds the admin |
| AuthContext.WrongPassword | src/contexts/auth-context.tsx:77-84 | any other password finds nothing |
| AuthContext.SignupError | src/contexts/auth-context.tsx:107-117 | the first failing of name length ≥ 2, '@' in email, password length ≥ 6, with its message, lengths in UTF-16 code units as `.length`; none iff all hold |
| AuthContext.AuthStore.IsAuthenticated | src/contexts/auth-context.tsx:166 | `!!user`: a user is signed in |
| AuthContext.ScanUsers | src/contexts/auth-context.tsx:126 | NotFound iff every entry has a string email different ignoring case; Found only if some entry has it |
| AuthContext.ExistingUsers | src/contexts/auth-context.tsx:120-133 | none exactly when a parsed list contains the email; a missing, blank or unparseable list starts fresh |
| AuthContext.AuthStore.constructor | src/contexts/auth-context.tsx:59-60 | no user and loading |
| AuthContext.AuthStore.GetStoredUser | src/contexts/auth-context.tsx:25-43 | result and new storage as ReadStoredUser |
| AuthContext.AuthStore.Mount | src/contexts/auth-context.tsx:64-70 | restores a stored user if any and stops loading |
| AuthContext.AuthStore.Login | src/contexts/auth-context.tsx:72-100 | on a match signs in as that credential with the given id and writes the session; otherwise fails with "Invalid email or password" and changes nothing |
| AuthContext.AuthStore.Signup | src/contexts/auth-context.tsx:102-152 | validation failures and a taken email leave state unchanged with their messages; otherwise signs in as role "User", writes session and list |
| AuthContext.AuthStore.Logout | src/contexts/auth-context.tsx:154-158 | no user, session slot removed, user list kept |
| AuthContext.SessionRoundTrip | src/contexts/auth-context.tsx:25-43 | a written session reads back as the new user without touching storage |
| AuthContext.SignupThenDuplicate | src/contexts/auth-context.tsx:120-149 | after a signup the same email in any case is taken |
| AuthContext.ScanNotFoundCaseInsensitive | src/contexts/auth-context.tsx:126 | NotFound does not depend on letter case |
| AuthContext.ScanAppendFound | src/contexts/auth-context.tsx:126-148 | a list without the email plus an entry with it scans as Found |
| AuthContext.SignupAppends | src/contexts/auth-context.tsx:148-149 | a signup appends exactly one entry and keeps the earlier ones |
| SignupPage.CriteriaMet | src/app/signup/page.tsx:25-30 | at most five points, one per criterion; the two length criteria use the UTF-16 length |
| SignupPage.PasswordStrength | src/app/signup/page.tsx:22-36 | empty gives score 0 and no label; otherwise the criteria count with Weak/Fair/Good/Strong and its colour by band |
| SignupPage.StrengthMonotone | src/app/signup/page.tsx:25-30 | appending characters never lowers the score |
| SignupPage.StrongExample | src/app/signup/page.tsx:25-35 | "Abcdefgh1!" is Strong |
| SignupPage.Bars | src/app/signup/page.tsx:224-227 | five bars, bar i filled iff i ≤ score |
| SignupPage.FilledBars | src/app/signup/page.tsx:224-227 | exactly score bars are filled |
| SignupPage.SubmitError | src/app/signup/page.tsx:45-53 | mismatch first, then a UTF-16 length under 6; none iff both pass |
| SignupPage.SignupForm.HandleSubmit | src/app/signup/page.tsx:40-65 | a local check failure sets its message and calls nothing; otherwise signup's error (or "Sign up failed") stops loading, and success navigates |
| CreateSiteModal.With | src/components/portfolio/create-site-modal.tsx:98 | only the named field changes |
| CreateSiteModal.PhonePatternIff | src/components/portfolio/create-site-modal.tsx:70 | the phone pattern accepts exactly non-empty strings of digits, whitespace, + - ( ) |
| CreateSiteModal.PhonePattern | src/components/portfolio/create-site-modal.tsx:70 | `/^[\d\s\+\-()]+$/` read as one class character followed by the rest of the match; its language is given by PhonePatternIff |
| CreateSiteModal.SiteErrors | src/components/portfolio/create-site-modal.tsx:62-76 | an entry exactly for each checked failing field, holding that field's non-empty message |
| CreateSiteModal.SiteErrorsByField | src/components/portfolio/create-site-modal.tsx:65-72 | each field's check and message, and that manager, guards and contact name are never flagged |
| CreateSiteModal.ValidIff | src/components/portfolio/create-site-modal.tsx:62-76 | no errors iff name, value and address are not blank, sector and tier set, and the phone empty or all phone characters |
| CreateSiteModal.WhitespaceNameRejected | src/components/portfolio/create-site-modal.tsx:65 | a name of spaces is rejected |
| CreateSiteModal.SiteModal.Validate | src/components/portfolio/create-site-modal.tsx:62-76 | replaces the errors with the form's errors; true iff none |
| CreateSiteModal.SiteModal.HandleSubmit | src/components/portfolio/create-site-modal.tsx:78-95 | valid: submits the data once, resets the form, closes once; invalid: nothing but the errors changes |
| CreateSiteModal.SiteModal.HandleChange | src/components/portfolio/create-site-modal.tsx:97-102 | sets one field and clears that field's error only |
| CreateAccountModal.With | src/components/portfolio/create-account-modal.tsx:94 | only the named field changes |
| CreateAccountModal.EmailPatternIff | src/components/portfolio/create-account-modal.tsx:67 | the email pattern accepts exactly: no whitespace, one '@' not first, a '.' after the character following it and before the last character |
| CreateAccountModal.EmailPattern | src/components/portfolio/create-account-modal.tsx:67 | `/^[^\s@]+@[^\s@]+\.[^\s@]+$/` read as the regex reads; its language is given by EmailPatternIff |
| CreateAccountModal.EmailPatternWellFormed | src/components/portfolio/create-account-modal.tsx:67 | every string the pattern accepts has that shape |
| CreateAccountModal.WellFormedMatchesPattern | src/components/portfolio/create-account-modal.tsx:67 | every string of that shape is accepted |
| CreateAccountModal.AccountErrors | src/components/portfolio/create-account-modal.tsx:60-73 | an entry exactly for each checked failing field, holding its non-empty message |
| CreateAccountModal.AccountErrorsByField | src/components/portfolio/create-account-modal.tsx:63-69 | each field's check and message; the unchecked fields never flagged |
| CreateAccountModal.ValidIff | src/components/portfolio/create-account-modal.tsx:60-73 | no errors iff company and ARR not blank, industry and tier set, email empty or well formed |
| CreateAccountModal.EmailExamples | src/components/portfolio/create-account-modal.tsx:67 | "a@b.co" accepted, "a@b@c.d" rejected |
| CreateAccountModal.AccountModal.Validate | src/components/portfolio/create-account-modal.tsx:60-73 | replaces the errors with the form's errors; true iff none |
| CreateAccountModal.AccountModal.HandleSubmit | src/components/portfolio/create-account-modal.tsx:75-91 | valid: submits once, resets, closes once; invalid: only the errors change |
| CreateAccountModal.AccountModal.HandleChange | src/components/portfolio/create-account-modal.tsx:93-98 | sets one field and clears that field's error only |
| PortfolioTypes.CountHighPriority | src/app/portfolio/layout.tsx:365 | never more than the number of sites |
| PortfolioLayout.FilteredSites | src/app/portfolio/layout.tsx:174-181 | exactly the sites matching search and filter, in order and with their multiplicity: each site occurs as often as in the input when shown and not at all otherwise; high-priority and enterprise filters only keep such sites |
| PortfolioLayout.MatchesSearch | src/app/portfolio/layout.tsx:175 | the lowercased name includes the lowercased query |
| PortfolioLayout.MatchesFilter | src/app/portfolio/layout.tsx:176-179 | "all", or the high-priority flag, or the enterprise tier, by filter |
| PortfolioLayout.Shown | src/app/portfolio/layout.tsx:180 | both the search and the filter match |
| PortfolioLayout.SearchIgnoresCase | src/app/portfolio/layout.tsx:175 | a query and its uppercase form find the same sites |
| PortfolioLayout.SearchFindsOccurrence | src/app/portfolio/layout.tsx:175 | a site matches iff the lowercased query occurs at some position of the lowercased name |
| PortfolioLayout.FilterNarrows | src/app/portfolio/layout.tsx:174-181 | each filter's list is a subsequence of the "all" list for the same search |
| PortfolioLayout.EmptySearchKeepsAll | src/app/portfolio/layout.tsx:174-181 | "all" with an empty search keeps every site |
| PortfolioLayout.MockSiteCounts | src/app/portfolio/layout.tsx:42-139 | eight sites, three high priority |
| PortfolioLayout.SidebarView | src/app/portfolio/layout.tsx:340-365 | "No sites found" iff no site is shown; the two summary counts |
| PortfolioLayout.Lookup | src/app/portfolio/layout.tsx:184-193 | the default when no key matches, else the value of the first entry whose key matches |
| PortfolioLayout.PageTitle | src/app/portfolio/layout.tsx:184-193 | the exact-path title, else "Suburban Security" |
| PortfolioLayout.PageTitleExact | src/app/portfolio/layout.tsx:184-193 | a trailing slash or a sub-path gets the default title |
| PortfolioLayout.NonEmptyWords | src/app/portfolio/layout.tsx:426 | the words with empty ones dropped |
| PortfolioLayout.FirstChars | src/app/portfolio/layout.tsx:426 | one character per non-empty word, its first |
| PortfolioLayout.Initials | src/app/portfolio/layout.tsx:426 | the uppercased first letters of the first two non-empty words |
| PortfolioLayout.InitialsOfTwoWords | src/app/portfolio/layout.tsx:426 | "a b" gives both capitalised first letters |
| PortfolioLayout.InitialsIgnoreLaterWords | src/app/portfolio/layout.tsx:426 | a third word adds nothing |
| PortfolioLayout.UserInitials | src/app/portfolio/layout.tsx:426 | defined iff the user has a name; at most two letters |
| PortfolioLayout.AuthGate | src/app/portfolio/layout.tsx:156-210 | spinner iff loading; redirect iff loaded without user, showing nothing; dashboard iff loaded with user |
| HighPrioritySites.PriorityReasonAsWritten | src/components/portfolio/high-priority-sites.tsx:15-32 | the cascade as written, where "Recent incident" holds for any lastIncident ≤ 3 other than 0 |
| HighPrioritySites.NoIncidentSiteCalledRecent | src/components/portfolio/high-priority-sites.tsx:22-24 | a site that never had an incident and has compliance 80 is labelled "Recent incident" |
| HighPrioritySites.PriorityReason | src/components/portfolio/high-priority-sites.tsx:15-32 | the corrected cascade: each reason iff its condition and not an earlier one; never an incident reason for the no-incident sentinel |
| HighPrioritySites.ReasonsAgreeOnDayCounts | src/components/portfolio/high-priority-sites.tsx:15-32 | the two cascades agree for every lastIncident ≥ 0 |
| HighPrioritySites.Flagged | src/components/portfolio/high-priority-sites.tsx:35 | exactly the flagged sites, in order, as many as flagged |
| HighPrioritySites.PrioritySites | src/components/portfolio/high-priority-sites.tsx:35 | the first min(count, 5) flagged sites, in order |
| HighPrioritySites.View | src/components/portfolio/high-priority-sites.tsx:40-95 | one row per priority site with its reason; empty note iff none flagged; "View all" iff some flagged and a handler is given |
| SiteCard.FormatCurrency | src/components/portfolio/site-card.tsx:14-22 | "R" with millions, thousands or units by threshold, amount times scale = value |
| SiteCard.IncidentLabel | src/components/portfolio/site-card.tsx:67-71 | "No incidents" for −1, "Incident today" for 0, else "Last incident: " + days + "d ago" whose digits read back as the days |
| SiteCard.CardView | src/components/portfolio/site-card.tsx:46-71 | Priority badge iff flagged; value, incident line and guard count |
| ActivityTicker.FloorNested | src/components/portfolio/security-activity-ticker.tsx:34-36 | flooring minutes to hours to days equals flooring the milliseconds once |
| ActivityTicker.AgeOf | src/components/portfolio/security-activity-ticker.tsx:33-40 | minutes below an hour, hours below a day, days otherwise, each floored |
| ActivityTicker.RelativeTime | src/components/portfolio/security-activity-ticker.tsx:30-41 | the floored count in minutes, hours or days, by the thresholds, rendered in decimal and followed by "m ago", "h ago" or "d ago"; a negative difference starts with '-' |
| ActivityTicker.RelativeTimeBoundaries | src/components/portfolio/security-activity-ticker.tsx:37-40 | 3599999 → "59m ago", 3600000 → "1h ago", 86400000 → "1d ago", −1 → "-1m ago" |
| ActivityTicker.RelativeTimeReadsBack | src/components/portfolio/security-activity-ticker.tsx:30-41 | for a past event the text before the unit is decimal digits that read back as the floored count |
| ActivityTicker.EventStyle | src/components/portfolio/security-activity-ticker.tsx:12-28 | unknown types get the shield and the grey fallback; known types never the fallback colour |
| DashboardContent.Greeting | src/app/portfolio/dashboard-content.tsx:55-60 | morning before 12, afternoon 12-16, evening from 17, each iff |
| DashboardContent.Shift | src/app/portfolio/dashboard-content.tsx:62-66 | day shift iff 6 ≤ hour < 18 |
| DashboardContent.EarlyAndLateHours | src/app/portfolio/dashboard-content.tsx:55-66 | before 6 morning and night shift; from 18 evening and night shift |
| DashboardContent.GreetingName | src/app/portfolio/dashboard-content.tsx:98 | non-empty and space-free; "Operator" without a name or with an empty first word; otherwise the name up to its first space |
| Testimonials.Next | src/components/testimonial-section.tsx:138 | in range; the following index, wrapping from the last to 0 |
| Testimonials.Prev | src/components/testimonial-section.tsx:139 | in range; the preceding index, wrapping from 0 to the last |
| Testimonials.NextPrevInverse | src/components/testimonial-section.tsx:138-139 | next and prev undo each other |
| Testimonials.Wraps | src/components/testimonial-section.tsx:138-139 | prev(0) = 2, next(2) = 0 |
| Testimonials.ThreeStepsReturn | src/components/testimonial-section.tsx:138 | three nexts return to the start |
| Testimonials.Dots | src/components/testimonial-section.tsx:241-247 | exactly the active dot is selected |
| Testimonials.Carousel.GoNext | src/components/testimonial-section.tsx:138 | the index becomes next of the old |
| Testimonials.Carousel.GoPrev | src/components/testimonial-section.tsx:139 | the index becomes prev of the old |
| Testimonials.Carousel.SelectDot | src/components/testimonial-section.tsx:247 | the index becomes the clicked dot, which alone is selected |
| Testimonials.Carousel.KeyDown | src/components/testimonial-section.tsx:141-159 | arrows move and prevent default only when focus is inside; otherwise nothing changes |
| FinancialScoreCards.GetStrength | src/components/ui/financial-score-cards.tsx:93-102 | none iff the score is null or 0; otherwise Strong from 80%, Moderate from 40%, Weak below |
| FinancialScoreCards.StrengthMonotone | src/components/ui/financial-score-cards.tsx:93-102 | among non-zero scores a higher one never has a lower band; negatives are Weak |
| FinancialScoreCards.DashOffset | src/components/ui/financial-score-cards.tsx:222-228 | −dist/4 without a score; below max exactly −(score/max)·dist/2, negatives included; −dist/2 at or above max; in [−dist/2, 0] for non-negative scores |
| FinancialScoreCards.RandomInt | src/components/ui/financial-score-cards.tsx:111-115 | between min and max inclusive |
| FinancialScoreCards.Round | src/components/ui/financial-score-cards.tsx:114 | `Math.round`: the integer within half a unit, halves rounding up |
| FinancialScoreCards.Digits | src/components/ui/financial-score-cards.tsx:186 | the digits of the floored score, which read back as it; '-' first for negatives |
| FinancialScoreCards.View | src/components/ui/financial-score-cards.tsx:185-341 | badge iff the score is truthy, with its band; "out of 100" iff a score; digits; offset; "Learn more" iff a score |
| FinancialScoreCards.ZeroScoreHasNoBadge | src/components/ui/financial-score-cards.tsx:275-341 | a zero score shows "Learn more" but no badge |
| FinancialScoreCards.Counter.GetNextIndex | src/components/ui/financial-score-cards.tsx:122-125 | returns the counter and increments it |
| FinancialScoreCards.AppearDelay | src/components/ui/financial-score-cards.tsx:165-166 | at least 300 ms |
| FinancialScoreCards.ScoreCard.Render | src/components/ui/financial-score-cards.tsx:160-162 | takes an index from the counter on the first render only |
| FinancialScoreCards.ScoreCard.HandleGenerateScore | src/components/ui/financial-score-cards.tsx:324-328 | only a card without a score gets one, in [0, 100] |
| FinancialScoreCards.MountCards | src/components/ui/financial-score-cards.tsx:122-162 | n cards under one provider take indices 0 to n − 1 in order |
| HealthGauge.ColorFor | src/components/portfolio/health-gauge.tsx:13-18 | green from 80, amber from 60, orange from 40, red below, each iff |
| HealthGauge.ColorMonotone | src/components/portfolio/health-gauge.tsx:13-18 | a higher percentage is never more severe |
| HealthGauge.Offset | src/components/portfolio/health-gauge.tsx:30 | the unfilled share of the circumference |
| HealthGauge.GaugeOf | src/components/portfolio/health-gauge.tsx:27-31 | percentage, radius, circumference, offset and colour band |
| HealthGauge.OffsetRange | src/components/portfolio/health-gauge.tsx:30 | the whole arc for 0, 0 at max, inside for in-range values, beyond for out-of-range ones |
| KpiCard.StatusColor | src/components/portfolio/kpi-card.tsx:25-32 | grey exactly without a status |
| KpiCard.StatusFromValue | src/components/portfolio/kpi-card.tsx:34-42 | not a gauge: healthy; a gauge: healthy from 80, warning from 60, critical below or unparsable |
| KpiCard.ComputedStatus | src/components/portfolio/kpi-card.tsx:71 | a given status wins, else the derived one |
| KpiCard.TrendTone | src/components/portfolio/kpi-card.tsx:63-69 | positive for the good direction, negative for the bad one, muted otherwise |
| KpiCard.InvertSwaps | src/components/portfolio/kpi-card.tsx:63-69 | inverting reads up as down |
| KpiCard.Body | src/components/portfolio/kpi-card.tsx:95-121 | gauge iff a gauge card with a number; trend pill and sparkline only when their data is present |
| CompactNumber.Format | src/components/portfolio/site-card.tsx:14-22 | unit by threshold, amount · scale = value, decimals 1, 0 or raw |
| CompactNumber.Scale | src/components/portfolio/site-card.tsx:15-20 | each unit's divisor is at least 1 |
| Chart.Min | src/components/portfolio/sparkline.tsx:28 | an element that is at most every element |
| Chart.Max | src/components/portfolio/sparkline.tsx:29 | an element that is at least every element |
| Chart.SpanOr1 | src/components/portfolio/sparkline.tsx:30 | never 0; the span when positive |
| Chart.Normalise | src/components/portfolio/sparkline.tsx:36-39 | one point per value at its x and y in the box |
| Chart.XSpan | src/components/portfolio/sparkline.tsx:37 | first x at the left, last at the right, equal steps |
| Chart.YWithin | src/components/portfolio/sparkline.tsx:38 | values in range land in the box; the low end at the bottom, the high end at the top |
| Chart.YStrictlyWithin | src/components/portfolio/activity-trend.tsx:26 | values strictly inside the range land strictly inside the box |
| Chart.PaddedRange | src/components/portfolio/activity-trend.tsx:20-21 | for positive values the 0.9/1.1 range strictly contains each |
| Chart.PaddedInside | src/components/portfolio/activity-trend.tsx:20-27 | positive values span the box's width and stay strictly inside it vertically |
| Chart.PaddedFlat | src/components/portfolio/activity-trend.tsx:20-27 | a level positive series sits half-way down; an all-zero one on the bottom |
| Chart.Polyline | src/components/portfolio/sparkline.tsx:41-43 | one M then one L per further point |
| Chart.Baseline | src/components/portfolio/sparkline.tsx:45 | down to the bottom under the last point, back to the left, close |
| Sparkline.Span | src/components/portfolio/sparkline.tsx:28-30 | positive; the range, or 1 for a flat series |
| Sparkline.Points | src/components/portfolio/sparkline.tsx:36-39 | one point per value |
| Sparkline.Paths | src/components/portfolio/sparkline.tsx:26-50 | nothing for fewer than two values, else the polyline and its area |
| Sparkline.SpansWidth | src/components/portfolio/sparkline.tsx:37 | x from 2 to width − 2 in equal steps |
| Sparkline.StaysInBox | src/components/portfolio/sparkline.tsx:38 | every y inside the margins; the maximum at the top when not flat |
| Sparkline.MinOnBottom | src/components/portfolio/sparkline.tsx:38 | the minimum is on the bottom margin |
| Sparkline.FlatSitsOnBottom | src/components/portfolio/sparkline.tsx:30-38 | a flat series lies along the bottom margin |
| ActivityTrend.PositiveValuesInside | src/components/portfolio/activity-trend.tsx:13-27 | x from 8 to 95; y strictly between 5 and 40 for positive values |
| ActivityTrend.FlatSeries | src/components/portfolio/activity-trend.tsx:20-27 | level positive values at y = 22.5; zeros at y = 40 |
| ActivityTrend.Points | src/components/portfolio/activity-trend.tsx:24-27 | one point per value |
| ActivityTrend.Segment | src/components/portfolio/activity-trend.tsx:34-44 | a curve that ends at the next point |
| ActivityTrend.Spline | src/components/portfolio/activity-trend.tsx:31-45 | an M at the first point, then segment i for each following point |
| ActivityTrend.SegmentsEndAtPoints | src/components/portfolio/activity-trend.tsx:33-45 | every command after M is a curve ending at its data point; the end control points use the end points as missing neighbours |
| ActivityTrend.FlatCurve | src/components/portfolio/activity-trend.tsx:39-42 | a level series gives level control points |
| ActivityTrend.BuildPath | src/components/portfolio/activity-trend.tsx:31-45 | the loop builds exactly the spline |
| ActivityTrend.Draw | src/components/portfolio/activity-trend.tsx:19-49 | points, spline, and area closed along y = 40 |
| ArrDonut.SegmentAt | src/components/portfolio/arr-donut.tsx:22-29 | share · total = value, dash = share · C, dash + gap = C |
| ArrDonut.Values | src/components/portfolio/arr-donut.tsx:14 | the tiers' values, in order |
| ArrDonut.Segments | src/components/portfolio/arr-donut.tsx:21-32 | one segment per tier, in order |
| ArrDonut.BuildSegments | src/components/portfolio/arr-donut.tsx:16-35 | the map with the running offset builds exactly those segments |
| ArrDonut.OffsetsChain | src/components/portfolio/arr-donut.tsx:19-30 | the first offset is C/4; each later one is the previous offset less the previous dash |
| ArrDonut.PrefixShares | src/components/portfolio/arr-donut.tsx:14-30 | the lengths before tier k are Σ_{j<k} value_j / total of C |
| ArrDonut.CoversCircle | src/components/portfolio/arr-donut.tsx:21-31 | the shares sum to 1, the dashes to C, and the last dash ends back at the top |
| ArrDonut.SharesSumToOne | src/components/portfolio/arr-donut.tsx:14-23 | the shares of all tiers add to 1 and their dashes to the circumference |
| ArrDonut.LastDashCloses | src/components/portfolio/arr-donut.tsx:28-30 | the last dash ends three quarters of the circumference before the first offset |
| ArrDonut.SharesBounded | src/components/portfolio/arr-donut.tsx:22 | non-negative values give shares in [0, 1] |
| ArrDonut.FormatValue | src/components/portfolio/arr-donut.tsx:37-41 | "$" with the unit by threshold |
| AnalyticsContent.ComplianceTotal | src/app/portfolio/analytics/analytics-content.tsx:145 | the sum of the four bands |
| AnalyticsContent.ArcAt | src/app/portfolio/analytics/analytics-content.tsx:170-184 | share · total = count, sweep = share · 180, large arc iff share > 0.5 |
| AnalyticsContent.ComplianceArcs | src/app/portfolio/analytics/analytics-content.tsx:147-169 | four arcs in band order |
| AnalyticsContent.AngleSumIsShare | src/app/portfolio/analytics/analytics-content.tsx:171-173 | the start angle is the share of the earlier bands of 180 |
| AnalyticsContent.ArcsContiguous | src/app/portfolio/analytics/analytics-content.tsx:171-174 | 0 at the start, each arc starts where the last ended, 180 at the end |
| AnalyticsContent.LargeArcIff | src/app/portfolio/analytics/analytics-content.tsx:184 | large arc iff the band holds more than half; at most one band for non-negative counts |
| AnalyticsContent.BarWidths | src/app/portfolio/analytics/analytics-content.tsx:231-259 | the largest bar is 100%; all in (0, 100] for positive revenues |
| AnalyticsContent.Revenues | src/app/portfolio/analytics/analytics-content.tsx:231 | the sectors' revenues, in order |
| AnalyticsContent.FormatValue | src/app/portfolio/analytics/analytics-content.tsx:233-237 | "R" with the unit by threshold |
| AnalyticsContent.EventPointsInside | src/app/portfolio/analytics/analytics-content.tsx:272-286 | x from 16 to 268; y strictly between 10 and 122 for positive counts |
| AnalyticsContent.EventPoints | src/app/portfolio/analytics/analytics-content.tsx:278-286 | one point per count |
| AnalyticsContent.BuildLinePath | src/app/portfolio/analytics/analytics-content.tsx:288-291 | the loop builds exactly the polyline |
| AnalyticsContent.DrawEventsTrend | src/app/portfolio/analytics/analytics-content.tsx:278-293 | points, polyline, and area closed along y = 122 |
| DataTable.Display | src/components/dashboard/data-table.tsx:85 | null and undefined show ""; strings as themselves; numbers in decimal |
| DataTable.Field | src/components/dashboard/data-table.tsx:85 | a missing key reads as undefined |
| DataTable.RowId | src/components/dashboard/data-table.tsx:34-40 | a string or number id as text, else "row-" and digits reading back as the index |
| DataTable.FallbackIdsDistinct | src/components/dashboard/data-table.tsx:39 | fallback keys of different rows differ |
| DataTable.CellText | src/components/dashboard/data-table.tsx:85 | the renderer's output if any, else the field's text |
| DataTable.MissingFieldBlank | src/components/dashboard/data-table.tsx:85 | a missing, null or undefined field shows "" |
| DataTable.RowViewOf | src/components/dashboard/data-table.tsx:71-88 | key, focusable iff a handler, one cell per column |
| DataTable.TableBody | src/components/dashboard/data-table.tsx:60-90 | the placeholder iff no data, spanning all columns with "No data available"; else one row per item |
| DataTable.RowsFollowColumns | src/components/dashboard/data-table.tsx:70-87 | every row has a cell per column, in column order, focusable iff clickable |
| DataTable.Headers | src/components/dashboard/data-table.tsx:48-56 | the captions in column order |
| DataTable.CaptionShown | src/components/dashboard/data-table.tsx:45 | shown iff given and non-empty |
| DataTable.HandleKeyDown | src/components/dashboard/data-table.tsx:24-32 | Enter and Space prevent default and click when there is a handler; other keys do nothing |
| Text.Trim | src/components/portfolio/create-site-modal.tsx:65 | no leading or trailing whitespace |
| Text.TrimEmptyIffBlank | src/components/portfolio/create-site-modal.tsx:65-69 | trims to "" iff all whitespace |
| Text.ToLower | src/app/portfolio/layout.tsx:175 | `toLowerCase` on ASCII letters: same length, each letter lowered, other characters kept |
| Text.ToUpper | src/app/portfolio/layout.tsx:426 | `toUpperCase` on ASCII letters: same length, each letter raised, other characters kept |
| Text.LowerOfUpper | src/app/portfolio/layout.tsx:175 | lowercasing undoes an uppercasing |
| Text.Contains | src/app/portfolio/layout.tsx:175 | `includes`: a prefix match here or a match further on |
| Text.ContainsIff | src/app/portfolio/layout.tsx:175 | `includes` holds iff the substring occurs at some position |
| Text.Utf16Length | src/contexts/auth-context.tsx:107-115 | `.length` in UTF-16 code units: between the number of characters and twice it |
| Text.Utf16LengthBmp | src/contexts/auth-context.tsx:107-115 | on Basic Multilingual Plane text the length is the number of characters |
| Text.Units | src/contexts/auth-context.tsx:107-115 | one code unit inside the Basic Multilingual Plane, two outside it |
| Text.Utf16LengthAppend | src/app/signup/page.tsx:26-27 | the length of a concatenation is the sum of the lengths |
| Text.Utf16LengthOfEmoji | src/app/signup/page.tsx:26-27 | two letters and two emoji: four characters, length six |
| Text.IntToString | src/components/portfolio/security-activity-ticker.tsx:38-40 | `String(i)`: decimal digits with a leading '-' exactly for negatives |
| Text.Split | src/app/portfolio/layout.tsx:426 | at least one piece, none containing the separator |
| Text.JoinSplit | src/app/portfolio/layout.tsx:426 | joining the pieces gives back the string |
| Text.ParseNatToString | src/components/portfolio/site-card.tsx:71 | decimal rendering reads back as the number |

## Left out

- Rendering: JSX, CSS classes and colour values, framer-motion animation, and the text form of SVG paths. Paths are command sequences, not strings. The suffixes "M" and "K" are part of number-to-text and are carried as the unit.
- Number-to-text formatting. `toFixed`, `toLocaleString` and `Intl` are not modelled; formatters keep the unit, the exact scaled amount and the decimal count.
- JavaScript numbers are exact reals. NaN, infinities and rounding are not modelled. Where the code divides by a total, maximum or range that could be zero, the member requires it non-zero.
- Number-to-text for non-integers. `Display` and `Digits` handle integers only.
- Trigonometry and π: the circle scenes' initial points, the sine easing, and the arc endpoints of the compliance gauge. The circle scenes take their points as input; circumferences are parameters.
- Randomness (`Math.random`, `crypto`), the clock and generated ids are parameters.
- Timers and async delays are left out. The simulated one-second login and signup delay is left out too; the auth methods act at once.
- `localStorage` is a map. `JSON.parse` is an abstract document or "unparseable".
- The generated-id fallback (`generateSecureId`'s template) is not modelled; ids are given.
- Whitespace and case are ASCII. `\s`, `trim`, `toLowerCase` and `toUpperCase` use the ASCII subset, not the full Unicode sets.
- Canvas drawing (`clear`, `drawDots`), DOM creation, `getBoundingClientRect` and listener objects are left out. Listeners are ids in maps.
- The modals' Escape-key handler and body-scroll lock are DOM effects and are left out.
- CreateSiteModal.SiteModal.HandleChange: the source sets the field's error to `undefined`; the model removes the key. These are the same to its only reader, the truthiness test.
- CreateAccountModal.AccountModal.HandleChange: the same, for the account form.
- ActivityTicker.EventStyle: inherited `Object.prototype` keys such as `"constructor"` are not treated as known event types.
- KpiCard.StatusFromValue: `parseFloat` of a string value is an input (`Str(text, parsed)`), not a parser.
- FinancialScoreCards.GetStrength: requires maxScore > 0; every caller passes 100.
- SiteCard.CardView: the selected styling and the click handler are not modelled beyond the flag.
- PortfolioLayout.UserInitials: `None` stands for the exception thrown when a user has no name.
- PortfolioLayout.Initials: a word's first character is taken whole. JavaScript's `n[0]` and `slice(0, 2)` work on UTF-16 code units, so for a character outside the Basic Multilingual Plane the source keeps only half of a surrogate pair.
- AuthContext.DecodeUser: a stored `name` or `role` that is not a string is read as absent. The source keeps the parsed value as it is, so a non-string name would make the layout's and the dashboard's `split` throw; the dashboard model greets "Operator" instead.
- The frame bookkeeping takes `isInViewport`'s answer as the `inView` flag of the canvas environment; the container's rectangle and the window size are not part of that state.
- Sparkline.FlatSitsOnBottom: a flat series is drawn on the bottom margin, as the code computes it. It is not centred vertically.
- High-priority rows use the corrected reason (see Findings); the as-written cascade is kept beside it.
- Other pages, navigation, the ECharts churn chart and the marketing sections are not part of this model.

## Findings

| source | as written | input that shows it | evidently intended | confidence | as-written member | corrected member |
|---|---|---|---|---|---|---|
| src/components/portfolio/high-priority-sites.tsx:22-24 | the third test is `site.lastIncident <= 3`, which also holds for the no-incident sentinel −1 | a flagged site with lastIncident −1 and compliance 80 is labelled "Recent incident" | "Recent incident" only for an incident 1 to 3 days ago | medium, not executed | HighPrioritySites.PriorityReasonAsWritten (shown by HighPrioritySites.NoIncidentSiteCalledRecent) | HighPrioritySites.PriorityReason |
