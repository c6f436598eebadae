# friendly — a Dafny model of the lead-capture site

This project models the core of *friendly*. It is a multi-brand marketing site. Its React front end has four brands: software, guidance, IT support and flow support. Its FastAPI back end stores contact-form leads in one MySQL database per brand and sends a notification e-mail for each lead.

What is modelled:

- **Front end**:
  - the brand registry (`siteConfig.ts`);
  - the route table and brand sync (`App.tsx`);
  - the body theming of `ThemeContext.tsx`;
  - the header and sidebar (`Header.tsx`, `SidebarMenu.tsx`);
  - the IT-support contact page with its debounced e-mail check (`Contact.tsx`);
  - the job application form and the mail-to apply button (`JobApplicationForm.tsx`, `SimpleEmailApplyButton.tsx`);
  - the careers page (`Career.tsx`);
  - the chat widget and its service (`chat.tsx`, `chatService.ts`).
- **Back end**:
  - the database registry and the website-source routing (`db/config.py`);
  - the client model: sanitising, validation, the duplicate check, the save, and the listing query (`models/client_model.py`);
  - the e-mail notification (`services/email_service.py`);
  - the two services (`services/client_service.py`, `services/query_service.py`);
  - the request validators and endpoints (`controllers/client.py`).

How things are modelled:

- One Dafny module per source file, plus these shared helpers:
  - `Wrappers`: `Option` and `Result`;
  - `Strings`: trimming with JavaScript's and with Python's white space, split and join, containment, ASCII case mapping, decimal text;
  - `Dom`: a document body with a class list, custom properties and a top padding;
  - `PyValues`: Python values and dictionaries.
- Components that keep React state are classes. Their fields are the state, and each handler or effect is a method whose `ensures` gives the new state as a function of the old one.
- Pure helpers are functions, and the properties of the design are lemmas.
- The database tables are fields of a `ClientStore` class: maps from database key to rows. The save is a method that appends to them.
- Anything the code cannot see is a parameter:
  - the environment;
  - the clock;
  - timers;
  - `encodeURIComponent`;
  - the network and the e-mail provider's answers;
  - a database error.


## Model

| member | source | states |
|---|---|---|
| SiteRegistry.ParseKey | Frontend/friendlyfront/src/siteConfig.ts:2 | a string is found among the keys of `sites` only when it is exactly one key's name, and the key found carries that name |
| SiteRegistry.KeysAreExactlyFour | Frontend/friendlyfront/src/siteConfig.ts:2-23 | the registered names are exactly `software`, `guidance`, `itsupport`, `flowsupport`, and distinct keys have distinct names |
| SiteRegistry.SoftwareLinksWellFormed | Frontend/friendlyfront/src/siteConfig.ts:29-35 | the software links include `home` and `contact`, have distinct hrefs and labels, and none is top-level |
| SiteRegistry.GuidanceLinksWellFormed | Frontend/friendlyfront/src/siteConfig.ts:50-56 | the guidance links include `home` and `contact`, have distinct hrefs and labels, and none is top-level |
| SiteRegistry.ItSupportLinksWellFormed | Frontend/friendlyfront/src/siteConfig.ts:72-81 | the IT-support links include `home` and `contact`, have distinct hrefs and labels, and all are top-level |
| SiteRegistry.FlowSupportLinksWellFormed | Frontend/friendlyfront/src/siteConfig.ts:98-103 | the flow-support links include `home` and `contact`, have distinct hrefs and labels, and none is top-level |
| SiteRegistry.SitesWellFormed | Frontend/friendlyfront/src/siteConfig.ts:23-114 | every brand's links are well formed, every brand sets the header height, the header and sidebar colours and a primary colour, and only the IT-support links are top-level |
| Paths.PathSegment | Frontend/friendlyfront/src/App.tsx:43 | `pathname.split('/')[1]` exists exactly when the path holds a '/', and it holds no '/' itself |
| Paths.SegmentKey | Frontend/friendlyfront/src/App.tsx:43-44 | a brand is found exactly when the first segment is one brand's name, and it is that brand |
| Paths.IndexSites | Frontend/friendlyfront/src/components/Header.tsx:15-17 | `sites[segment]` is a brand's configuration exactly when the segment is one key's name, an inherited built-in exactly when it is a property name of `Object.prototype` such as `constructor`, and `undefined` otherwise, also when the pathname has no '/' |
| Paths.InheritedNotCaseOfKey | Frontend/friendlyfront/src/components/Header.tsx:15-17 | no inherited property name spells a brand key in other letter case |
| Paths.PathSegmentOfJoin | Frontend/friendlyfront/src/App.tsx:43 | the first segment of a path built from '/'-free pieces is its second piece |
| Paths.BrandPathSegment | Frontend/friendlyfront/src/App.tsx:55-83 | the first segment of `/<brand>/<page>` is the brand's key, so the route's own brand is the one found |
| Paths.BrandPathInjective | Frontend/friendlyfront/src/App.tsx:55-83 | two `/<brand>/<page>` paths are equal exactly when their brands and pages are |
| App.SyncedSite | Frontend/friendlyfront/src/App.tsx:42-47 | the site becomes the brand the first segment names exactly, and stays unchanged when the segment names no brand |
| App.SyncSite | Frontend/friendlyfront/src/App.tsx:42-47 | the path effect sets the theme's site to `SyncedSite`; when the site changes the body is re-themed for it, and otherwise the body is untouched |
| App.SegNames | Frontend/friendlyfront/src/App.tsx:55-83 | the page segments of the table are distinct, '/'-free, read back to themselves, and empty only for the bare `/<brand>` routes |
| App.SoftwareRoutes | Frontend/friendlyfront/src/App.tsx:55-60 | the software block has only software routes, no page twice, and includes `home` and `contact` |
| App.GuidanceRoutes | Frontend/friendlyfront/src/App.tsx:63-67 | the guidance block has only guidance routes, no page twice, and includes `home` and `contact` |
| App.ItSupportRoutes | Frontend/friendlyfront/src/App.tsx:70-73 | the IT-support block has only IT-support routes, no page twice, and includes `home` and `contact` |
| App.FlowSupportRoutes | Frontend/friendlyfront/src/App.tsx:76-79 | the flow-support block has only flow-support routes, no page twice, and includes `home` and `contact` |
| App.BareRoutes | Frontend/friendlyfront/src/App.tsx:80-83 | the four bare routes cover each brand exactly once |
| App.BrandRoutesDistinct | Frontend/friendlyfront/src/App.tsx:55-83 | no brand/page pair appears twice in the table |
| App.RouteOfBlock | Frontend/friendlyfront/src/App.tsx:55-83 | each position of the table lies in one brand block, in declaration order |
| App.Routes | Frontend/friendlyfront/src/App.tsx:50-84 | the table is the root entry followed by one route per brand route, in order |
| App.RootRoute | Frontend/friendlyfront/src/App.tsx:52 | the table has 24 routes, and `/` redirects to `/software/home` |
| App.RoutesShape | Frontend/friendlyfront/src/App.tsx:55-83 | every route but the root lies under `/<brand>`, and its first segment names that brand |
| App.RouteShape | Frontend/friendlyfront/src/App.tsx:55-83 | one brand route's path is `/<brand>` or starts with `/<brand>/` |
| App.RoutePathsDistinct | Frontend/friendlyfront/src/App.tsx:50-84 | the 24 route paths are pairwise distinct, so no route shadows another |
| App.RoutePatterns | Frontend/friendlyfront/src/App.tsx:50-84 | every path of the table starts with '/', has no upper-case letter, and ends in '/' only for the root |
| App.MatchesSame | Frontend/friendlyfront/src/App.tsx:50-84 | two such paths that match the same location are equal |
| App.MatchUnique | Frontend/friendlyfront/src/App.tsx:50-84 | no location is matched by two routes of the table, so React Router's ranking never has to choose |
| App.LookupMatched | Frontend/friendlyfront/src/App.tsx:50-84 | a location matched by a route of the table renders that route's element |
| App.Lookup | Frontend/friendlyfront/src/App.tsx:50-84 | the element found is that of an entry whose path matches the location as React Router does (ignoring letter case, with any number of trailing '/'); none is found exactly when no entry matches |
| App.FoundInTable | Frontend/friendlyfront/src/App.tsx:55-83 | every brand route's path renders exactly that route's page |
| App.TrailingSlashes | Frontend/friendlyfront/src/App.tsx:50-84 | a route path followed by any number of '/' renders the same element as the path itself |
| App.CaseVariant | Frontend/friendlyfront/src/App.tsx:42-84 | on `/<seg>/<page>` where `seg` spells a brand key in other case, the brand's page is rendered, yet the site effect keeps the current site and the header falls back to `itsupport` (the header's lookup is at Header.tsx lines 15-17) |
| App.EveryBrandHasHomeAndContact | Frontend/friendlyfront/src/App.tsx:55-83 | every brand has a home page, a contact page and a bare `/<brand>` route |
| App.NoRouteForOtherPage | Frontend/friendlyfront/src/App.tsx:50-84 | a page whose lower-cased text is not one of the table's segment names has no route under any brand |
| App.ItSupportLinksWithoutRoute | Frontend/friendlyfront/src/siteConfig.ts:74-78 | the IT-support links `itservices`, `swservices`, `dataservices` and `careers` point at paths the table does not route |
| App.MarginClearsDrawer | Frontend/friendlyfront/src/App.tsx:92-93 | layout documentation over the two pairs of constants: the main column's margin (250 or 56) is at least the drawer's width (240 or 56) in both states, with 10 pixels to spare when open |
| App.AppShell.HandleSidebarToggle | Frontend/friendlyfront/src/App.tsx:89-90 | the toggle flips `isSidebarOpen`, and the margin switches between 56 and 250 pixels |
| ThemeContext.ExactlyOneThemeClass | Frontend/friendlyfront/src/context/ThemeContext.tsx:21-30 | after the effect exactly one theme class is present, the current site's, and every other class is unchanged |
| ThemeContext.ThemedStyleAt | Frontend/friendlyfront/src/context/ThemeContext.tsx:33-45 | each custom property after the effect has the value the configuration gives it: the header height, or `64px`; each truthy colour or size, or the old value; the background, or `#f7f7f7` |
| ThemeContext.ThemedStyleNoEmpty | Frontend/friendlyfront/src/context/ThemeContext.tsx:36-45 | the effect never stores an empty property value |
| ThemeContext.ThemedStyleIdempotent | Frontend/friendlyfront/src/context/ThemeContext.tsx:19-47 | running the effect twice for the same configuration leaves the same properties as running it once |
| ThemeContext.ThemeProvider.constructor | Frontend/friendlyfront/src/context/ThemeContext.tsx:16-19 | on mounting, the site is `software` and the body is themed for it |
| ThemeContext.ThemeProvider.ApplyTheme | Frontend/friendlyfront/src/context/ThemeContext.tsx:19-47 | the effect sets the class list to `ThemedClasses` and the properties to `ThemedStyle` for the current site, and leaves the padding alone |
| ThemeContext.ThemeProvider.ApplyStyle | Frontend/friendlyfront/src/context/ThemeContext.tsx:33-45 | the property writes leave exactly `ThemedStyle` |
| ThemeContext.ThemeProvider.ApplyConfig | Frontend/friendlyfront/src/context/ThemeContext.tsx:36-43 | the writes before the background leave exactly `ConfigWrites` |
| ThemeContext.ThemeProvider.SetWhenTruthy | Frontend/friendlyfront/src/context/ThemeContext.tsx:39-43 | a property is written only when its value is truthy |
| ThemeContext.ThemeProvider.SetSite | Frontend/friendlyfront/src/context/ThemeContext.tsx:17-47 | `setSite` stores the site and re-runs the effect only when the value changes |
| Header.HeaderSite | Frontend/friendlyfront/src/components/Header.tsx:15-17 | the header uses the brand named exactly by the first segment; an inherited property name such as `constructor` survives `\|\|` as a built-in; only an `undefined` lookup falls back to `itsupport` |
| Header.HeaderStyleValues | Frontend/friendlyfront/src/components/Header.tsx:20-25 | about `Header.HeaderStyle`: after the header's effect: `--primary` is the primary colour; `--header-bg` is the shade or, failing that, the primary colour; `--header-text` is the text colour or `#fff`; nothing else changes |
| Header.LogoSizeMeaning | Frontend/friendlyfront/src/components/Header.tsx:58-59 | about `Header.LogoSize`: the logo is never zero-sized; a set, non-zero width or height is kept, a missing or zero one becomes 80, and a built-in standing in for the configuration gets 80 by 80 |
| Header.HeaderAgreesWithTheme | Frontend/friendlyfront/src/components/Header.tsx:20-25 | for a registered brand the header writes the same three colours the theme provider writes |
| Header.ApplyHeaderEffect | Frontend/friendlyfront/src/components/Header.tsx:20-25 | the effect sets the properties to `HeaderStyle` and the top padding to `headerHeight || 64` pixels |
| Header.LinkPrefix | Frontend/friendlyfront/src/components/Header.tsx:51-90 | the links use the raw first segment when it is non-empty, and `itsupport` otherwise |
| Header.HeaderHeightConsistent | Frontend/friendlyfront/src/components/Header.tsx:24-34 | every brand sets its header height, so the app bar and the body padding agree |
| Header.UnknownSegmentKeepsPrefix | Frontend/friendlyfront/src/components/Header.tsx:16-51 | under a first segment that is neither a key nor an inherited name the header shows IT support, but its links keep that segment |
| Header.InheritedSegmentHeader | Frontend/friendlyfront/src/components/Header.tsx:16-51 | under an inherited name such as `toString` the header writes the text `undefined` as primary and background colour, `#fff` as text colour and a `64px` padding, and its links keep the segment |
| Header.BrandPageHeader | Frontend/friendlyfront/src/components/Header.tsx:16-51 | on a brand's page the header uses that brand and links to its home and contact pages |
| SidebarMenu.SidebarSite | Frontend/friendlyfront/src/components/SidebarMenu.tsx:35-36 | the sidebar uses the brand named exactly by the first segment; an inherited property name survives `\|\|` as a built-in; only an `undefined` lookup falls back to `software` |
| SidebarMenu.IconFor | Frontend/friendlyfront/src/components/SidebarMenu.tsx:130-137 | an icon is drawn exactly for the eight names the conditional chain tests |
| SidebarMenu.UnknownIcons | Frontend/friendlyfront/src/components/SidebarMenu.tsx:130-137 | the IT-support icons `Storage` and `Career` get no icon, while `Home` and `Mail` do |
| SidebarMenu.RenderItems | Frontend/friendlyfront/src/components/SidebarMenu.tsx:91-143 | one item per link, in order, each targeting `/${path}/${href}`, active exactly on that path, with its label shown when open and as a tooltip when closed |
| SidebarMenu.Items | Frontend/friendlyfront/src/components/SidebarMenu.tsx:35-91 | the menu fails to render (`navLinks.map` of `undefined` throws) exactly when the first segment is an inherited property name |
| SidebarMenu.AtMostOneActive | Frontend/friendlyfront/src/components/SidebarMenu.tsx:91-143 | whatever the path, at most one item of a rendered menu is highlighted, because every brand's hrefs are distinct (the test at line 107 compares with the path of line 38) |
| SidebarMenu.ActiveOnBrandPage | Frontend/friendlyfront/src/components/SidebarMenu.tsx:91-143 | on `/<brand>/<page>` an item is active exactly when its href is the page (the test at line 107 compares with the path of line 38) |
| SidebarMenu.BrandPageMenu | Frontend/friendlyfront/src/components/SidebarMenu.tsx:35-91 | on a brand's page the sidebar renders that brand's own links |
| SidebarMenu.InheritedSegmentMenu | Frontend/friendlyfront/src/components/SidebarMenu.tsx:35-91 | under an inherited name such as `__proto__` the lookup keeps a built-in and the menu throws instead of rendering |
| SidebarMenu.SidebarDefaultsUnused | Frontend/friendlyfront/src/components/SidebarMenu.tsx:50-54 | every brand sets its sidebar colour and header height, so the fallbacks are never used |
| ContactPage.WebsiteSourceShape | Frontend/friendlyfront/src/components/itsupport/Contact.tsx:46-68 | about `ContactPage.WebsiteSource`: the derived source is never empty, holds no '/' and no upper-case letter, and is one of `itsupport`, `software`, `guidance` or a segment of the lower-cased path |
| ContactPage.SegmentSourceOfKey | Frontend/friendlyfront/src/components/itsupport/Contact.tsx:55-64 | each brand key maps to itself; `flowsupport` matches none of the three patterns and passes through unchanged |
| ContactPage.WebsiteSourceOfBrandPath | Frontend/friendlyfront/src/components/itsupport/Contact.tsx:46-68 | on every page `/<brand>/<page>` the form reports that brand's key as its source |
| ContactPage.WebsiteSourceOfRoot | Frontend/friendlyfront/src/components/itsupport/Contact.tsx:66-67 | a pathname without a non-empty segment (`/` or empty) gives the `itsupport` default |
| ContactPage.PageTitle | Frontend/friendlyfront/src/components/itsupport/Contact.tsx:70-77 | the title is the generic "Contact Us" exactly when the source is none of the three named databases |
| ContactPage.PageTitleOfBrand | Frontend/friendlyfront/src/components/itsupport/Contact.tsx:70-77 | on a brand's page the generic title is computed exactly for the flow-support brand (line 313 computes the title; nothing renders it) |
| ContactPage.EmailBorderColor | Frontend/friendlyfront/src/components/itsupport/Contact.tsx:391-396 | green exactly for a known address, blue exactly for a checked unknown one, red exactly for other typed text, grey exactly for an empty field |
| ContactPage.ScheduledCheckProceeds | Frontend/friendlyfront/src/components/itsupport/Contact.tsx:146-198 | an address that passes the scheduling guard always passes the fired check's guard after trimming |
| ContactPage.ShortAddressNotChecked | Frontend/friendlyfront/src/components/itsupport/Contact.tsx:198 | the five-character address `a@b.c` looks like an address yet is never checked, because the guard asks for more than five characters |
| ContactPage.Scheduled | Frontend/friendlyfront/src/components/itsupport/Contact.tsx:194-200 | about `ContactPage.ShouldSchedule`: after the check effect a timer is pending exactly when the scheduling guard holds |
| ContactPage.StatusAfter | Frontend/friendlyfront/src/components/itsupport/Contact.tsx:172-190 | after an answer the status is no longer checking, is valid exactly for an answer, has an unknown `exists` exactly after a failure, and a failure carries the fixed retry message |
| ContactPage.BorderAfterCheck | Frontend/friendlyfront/src/components/itsupport/Contact.tsx:391-396 | after a failed check the field is red while it holds text; after an answer it is green for a known address and blue for a new one (after the answer handling of lines 172-190) |
| ContactPage.ContactForm.constructor | Frontend/friendlyfront/src/components/itsupport/Contact.tsx:80-101 | the form starts empty with `+45` and the source of the mount path, the status unchecked, the name fields shown and no timer |
| ContactPage.ContactForm.SetEmail | Frontend/friendlyfront/src/components/itsupport/Contact.tsx:135-207 | the address is stored; when it differs from the old one, the name fields are shown again unless it looks like an address and the timer slot is replaced as the guard decides; an unchanged address leaves the visibility and the timer as they were, because neither effect reruns |
| ContactPage.ContactForm.ResetVisibility | Frontend/friendlyfront/src/components/itsupport/Contact.tsx:135-141 | the name fields become visible when the trimmed address does not look like one, and nothing else changes |
| ContactPage.ContactForm.Reschedule | Frontend/friendlyfront/src/components/itsupport/Contact.tsx:194-200 | the old timer is cleared and a new one holding the current address and source is set exactly when the guard holds |
| ContactPage.ContactForm.SetLocation | Frontend/friendlyfront/src/components/itsupport/Contact.tsx:126-132 | a location change re-derives the source, and the timer is rescheduled only when the source changed (the check effect at lines 194-207 reruns on the source) |
| ContactPage.ContactForm.FireTimer | Frontend/friendlyfront/src/components/itsupport/Contact.tsx:145-163 | the slot empties; a request with the trimmed address, and the source only when non-empty, is sent exactly when the trimmed address looks like one, and the status is then marked as checking |
| ContactPage.ContactForm.Receive | Frontend/friendlyfront/src/components/itsupport/Contact.tsx:169-190 | the status becomes `StatusAfter` of the answer and a known address hides the name fields; nothing else changes |
| ContactPage.ScheduleThenFire | Frontend/friendlyfront/src/components/itsupport/Contact.tsx:144-207 | typing an address that passes the guard and letting the timer fire always sends a request with the trimmed address |
| JobApplication.EmailPatternTestCorrect | Frontend/friendlyfront/src/components/itsupport/JobApplicationForm.tsx:124 | the executable test accepts exactly the strings the pattern `^[^\s@]+@[^\s@]+\.[^\s@]+$` matches (a non-empty local part, '@', a non-empty piece, '.', a non-empty tail, none holding '@' or whitespace) |
| JobApplication.PaddedAddressRejected | Frontend/friendlyfront/src/components/itsupport/JobApplicationForm.tsx:122-126 | the pattern is applied to the untrimmed address: ` a@b.co` is not blank yet fails the pattern |
| JobApplication.ErrorsOfKeys | Frontend/friendlyfront/src/components/itsupport/JobApplicationForm.tsx:117-136 | each check adds only its own key with its own message, and the map is empty exactly when no check fails |
| JobApplication.ValidationErrorsMeaning | Frontend/friendlyfront/src/components/itsupport/JobApplicationForm.tsx:117-136 | about `JobApplication.ValidationErrors`: validation finds no error exactly when the name, phone and cover letter are not blank, the e-mail is non-blank and matches the pattern, and the terms are agreed; each flagged key corresponds to its failed check, the e-mail's "required" message winning over the format message |
| JobApplication.OptionalFieldsNeverFlagged | Frontend/friendlyfront/src/components/itsupport/JobApplicationForm.tsx:117-136 | company, position, LinkedIn, portfolio and salary are never flagged and changing them changes no error |
| JobApplication.DefaultFormRejected | Frontend/friendlyfront/src/components/itsupport/JobApplicationForm.tsx:117-136 | the initial form is flagged on all five checked fields, that is the defaults of lines 70-83 |
| JobApplication.SubjectParts | Frontend/friendlyfront/src/components/itsupport/JobApplicationForm.tsx:152 | the subject is `Job Application: `, then the position's title or `General Application` when it has none, then ` - ` and the applicant's name |
| JobApplication.ApplicationForm.constructor | Frontend/friendlyfront/src/components/itsupport/JobApplicationForm.tsx:70-87 | the dialog starts with the default fields (30-day notice, `Website` referral), terms unchecked, no errors, not loading and not successful |
| JobApplication.ApplicationForm.HandleChange | Frontend/friendlyfront/src/components/itsupport/JobApplicationForm.tsx:89-100 | the named field takes the value and its error is blanked only when it had a non-empty one; nothing else changes |
| JobApplication.ApplicationForm.HandleCheckboxChange | Frontend/friendlyfront/src/components/itsupport/JobApplicationForm.tsx:102-107 | the terms flag takes the box's state; nothing else changes |
| JobApplication.ApplicationForm.HandleSelectChange | Frontend/friendlyfront/src/components/itsupport/JobApplicationForm.tsx:109-115 | the named field takes the value and errors are kept |
| JobApplication.ApplicationForm.Validate | Frontend/friendlyfront/src/components/itsupport/JobApplicationForm.tsx:117-136 | the stored errors become `ValidationErrors` of the form, and the answer is true exactly when the form is valid |
| JobApplication.ApplicationForm.HandleSubmit | Frontend/friendlyfront/src/components/itsupport/JobApplicationForm.tsx:200-256 | an invalid form only records its errors and opens nothing; a valid one opens the `mailto:` link to the careers address with the built subject and sets loading and success; if opening fails only the submit error is recorded and loading is cleared |
| JobApplication.ApplicationForm.ResetAfterSuccess | Frontend/friendlyfront/src/components/itsupport/JobApplicationForm.tsx:231-250 | the dialog closes and the form returns to its initial state |
| JobApplication.ApplicationForm.HandleClose | Frontend/friendlyfront/src/components/itsupport/JobApplicationForm.tsx:258-263 | nothing happens while loading; otherwise the parent is told and errors and success are cleared |
| Mailto.ParseMailtoLink | Frontend/friendlyfront/src/components/itsupport/SimpleEmailApplyButton.tsx:90-92 | about `Mailto.MailtoLink`: reading a built `mailto:` link back gives its recipient and the two encoded values, whenever the encoder keeps `&`, `?` and `=` out of them (as `encodeURIComponent` does) |
| ApplyButton.BodyReadsBack | Frontend/friendlyfront/src/components/itsupport/SimpleEmailApplyButton.tsx:65-85 | the body splits into its lines in order; the id line is empty exactly when the id is absent, `""` or the number 0, the department and location lines exactly when the property is absent or empty, the job type line defaults to `Full-time` and is empty only for an explicit empty type, and the consent line shows the timestamp (`null` before the box was touched) |
| ApplyButton.BodyLinesAt | Frontend/friendlyfront/src/components/itsupport/SimpleEmailApplyButton.tsx:68-85 | the body has 18 lines, the four optional detail lines at positions 1 to 4 and the consent timestamp at position 13 |
| ApplyButton.JobIdText | Frontend/friendlyfront/src/components/itsupport/SimpleEmailApplyButton.tsx:28-69 | an id that is text or a number shows exactly when it is truthy (not `""`, not 0): text as given, a number in decimal, never empty and never holding a line break |
| ApplyButton.OptLineEmpty | Frontend/friendlyfront/src/components/itsupport/SimpleEmailApplyButton.tsx:69-72 | an optional line is empty exactly when its value is absent or empty |
| ApplyButton.TemplateReadsBack | Frontend/friendlyfront/src/components/itsupport/SimpleEmailApplyButton.tsx:116-134 | the copied and downloaded text is the `To:` line, the `Subject:` line, a blank line, then exactly the body's lines |
| ApplyButton.ReplaceSpaceRuns | Frontend/friendlyfront/src/components/itsupport/SimpleEmailApplyButton.tsx:139 | the replacement leaves no whitespace character |
| ApplyButton.ReplaceKeepsVisible | Frontend/friendlyfront/src/components/itsupport/SimpleEmailApplyButton.tsx:139 | replacing whitespace runs keeps every other character of the title, in order |
| ApplyButton.ReplaceIdempotent | Frontend/friendlyfront/src/components/itsupport/SimpleEmailApplyButton.tsx:139 | replacing twice is replacing once |
| ApplyButton.FileNameShape | Frontend/friendlyfront/src/components/itsupport/SimpleEmailApplyButton.tsx:139 | the download's file name holds no whitespace and keeps every visible character of the title |
| ApplyButton.ApplyButtonState.constructor | Frontend/friendlyfront/src/components/itsupport/SimpleEmailApplyButton.tsx:49-62 | the button starts not loading, not copied, without consent or timestamp, and with a closed snackbar |
| ApplyButton.ApplyButtonState.ConsentChanged | Frontend/friendlyfront/src/components/itsupport/SimpleEmailApplyButton.tsx:150-155 | the consent follows the box and the timestamp is refreshed on every change, unticking included |
| ApplyButton.ApplyButtonState.HandleApply | Frontend/friendlyfront/src/components/itsupport/SimpleEmailApplyButton.tsx:101-114 | without consent only the warning is shown and nothing opens; with it loading starts and the `mailto:` link to the careers address with the subject and body is opened |
| ApplyButton.ApplyButtonState.LoadingTimerFires | Frontend/friendlyfront/src/components/itsupport/SimpleEmailApplyButton.tsx:113 | the timer clears loading and nothing else |
| ApplyButton.ApplyButtonState.CopyEmailContent | Frontend/friendlyfront/src/components/itsupport/SimpleEmailApplyButton.tsx:116-126 | the clipboard receives the template, the copied flag is set and the success snackbar opens |
| ApplyButton.ApplyButtonState.CopiedTimerFires | Frontend/friendlyfront/src/components/itsupport/SimpleEmailApplyButton.tsx:127 | the timer clears the copied flag and nothing else |
| ApplyButton.ApplyButtonState.DownloadEmailTemplate | Frontend/friendlyfront/src/components/itsupport/SimpleEmailApplyButton.tsx:130-141 | the file holds the template and is named `Application_<title>.txt` with every whitespace run an underscore |
| Career.CeilDiv | Frontend/friendlyfront/src/components/itsupport/Career.tsx:86 | `Math.ceil(x / d)` is the least whole number whose multiple of `d` reaches `x` |
| Career.DiffDays | Frontend/friendlyfront/src/components/itsupport/Career.tsx:85-86 | the day difference is the number of whole days, rounded up, that covers the time left |
| Career.UnparsedIsOpen | Frontend/friendlyfront/src/components/itsupport/Career.tsx:82 | a closing date that does not parse reads "Open until filled" |
| Career.LabelByTimeLeft | Frontend/friendlyfront/src/components/itsupport/Career.tsx:85-92 | about `Career.ClosingLabel`: the labels Closed, Closes today, Closes tomorrow, Closes in N days and the plain date cover consecutive, disjoint ranges of the time left (at most minus one day, up to zero, up to one day, up to seven days, more), so every parsed date gets exactly one |
| Career.ClosesInRange | Frontend/friendlyfront/src/components/itsupport/Career.tsx:91 | "Closes in N days" always names between two and seven days, and N is the rounded-up day difference |
| Career.FarDateShownAsDate | Frontend/friendlyfront/src/components/itsupport/Career.tsx:93 | a closing date more than a week away is shown as a date |
| Chat.SendBlockedMeaning | Frontend/friendlyfront/src/components/itsupport/chat.tsx:110-158 | sending is blocked exactly when a reply is pending or the input holds only whitespace (the button is disabled by the same test at line 285) |
| Chat.BotMessage | Frontend/friendlyfront/src/components/itsupport/chat.tsx:134-153 | the bot message carries the reply's text, or the fixed apology when the service failed |
| Chat.ChatWidget.constructor | Frontend/friendlyfront/src/components/itsupport/chat.tsx:14-24 | the history starts with the greeting alone, the input empty and both flags clear |
| Chat.ChatWidget.SetInput | Frontend/friendlyfront/src/components/itsupport/chat.tsx:274-280 | typing replaces the input only while no reply is pending (the field is disabled while loading), and keeps the history and both flags |
| Chat.ChatWidget.Send | Frontend/friendlyfront/src/components/itsupport/chat.tsx:110-125 | a blocked send changes nothing; otherwise the trimmed text is appended as a user message, the box is cleared, both flags are set and the untrimmed text is sent |
| Chat.ChatWidget.Receive | Frontend/friendlyfront/src/components/itsupport/chat.tsx:127-157 | exactly one bot message, the reply or the apology, is appended and both flags are cleared |
| Chat.ChatWidget.KeyPress | Frontend/friendlyfront/src/components/itsupport/chat.tsx:161-166 | only Enter without Shift sends, under the same guard as the button |
| Chat.SendCycle | Frontend/friendlyfront/src/components/itsupport/chat.tsx:110-157 | while a reply is pending, typing is ignored and a second send is refused; when the reply arrives the history has grown by exactly the user message then the bot message, the box is empty and both flags are clear |
| ChatService.CleanReplyShape | Frontend/friendlyfront/src/services/chatService.ts:21 | about `ChatService.CleanReply`: the cleaned reply is a contiguous piece of the body from which only quotes and whitespace were cut, and it neither starts nor ends with one |
| ChatService.StripWithoutTrim | Frontend/friendlyfront/src/services/chatService.ts:21 | after the quote strip the final `trim()` has nothing left to remove |
| ChatService.CleanReplyIdempotent | Frontend/friendlyfront/src/services/chatService.ts:21 | cleaning a cleaned reply changes nothing |
| ChatService.OnlyQuotesCleanToEmpty | Frontend/friendlyfront/src/services/chatService.ts:21 | a body made only of quotes and whitespace cleans to the empty text |
| ChatService.SendChatMessage | Frontend/friendlyfront/src/services/chatService.ts:2-29 | the call fails exactly when the fetch threw or the status was not OK, always with "Unable to connect to backend", and otherwise returns the cleaned body |
| DbConfig.DbConfigsKeys | Backend/db/config.py:12-40 | the registry holds exactly the three databases guidance, itsupport and software, in order, each configured from its own environment variables and defaults |
| DbConfig.RemoveUnderscores | Backend/db/config.py:54 | `replace('_', '')` keeps exactly the characters other than '_' |
| DbConfig.ValidDbNameMeaning | Backend/db/config.py:54 | a database name is accepted exactly when it is text that, with underscores removed, is a non-empty run of letters and digits; the model's letters and digits are the ASCII ones only (see "## Left out") |
| DbConfig.ConfigError | Backend/db/config.py:47-56 | a configuration is refused exactly when it lacks a required setting or its name is invalid |
| DbConfig.ValidateDbConfigsMeaning | Backend/db/config.py:43-56 | about `DbConfig.ValidateDbConfigs`: validation passes exactly when every configuration is sound, and a failure reports the first configuration that is not |
| DbConfig.ConfigsHaveRequiredKeys | Backend/db/config.py:12-51 | the configurations built from any environment carry every required setting, so validation can fail only on a database name |
| DbConfig.ImportValidationIff | Backend/db/config.py:58-63 | importing the module succeeds exactly when the three configured database names are valid |
| DbConfig.DefaultNamesValid | Backend/db/config.py:12-63 | with no database variable set, validation passes |
| DbConfig.FirstContainedMeaning | Backend/db/config.py:95-97 | about `DbConfig.FirstContained`: the search returns the value of the first mapping whose key occurs in the text, and nothing when none occurs |
| DbConfig.EmptySourceIsGuidance | Backend/db/config.py:74-79 | an absent or empty source maps to `guidance` |
| DbConfig.DatabaseForIsConfigured | Backend/db/config.py:70-99 | every source maps to one of the three configured databases |
| DbConfig.ExactKeys | Backend/db/config.py:84-93 | each of the three brand keys maps to itself and `default` maps to `itsupport` |
| DbConfig.ExactLookupAgreesWithSearch | Backend/db/config.py:91-99 | the exact-key lookup never changes the answer: the containment search alone gives the same database for every non-empty source |
| DbConfig.DatabaseForMeaning | Backend/db/config.py:81-99 | about `DbConfig.DatabaseFor`: a non-empty source maps to the value of the first mapping key (itsupport, guidance, software, default) occurring in its lower-cased, stripped text, or to `guidance` when none occurs |
| DbConfig.MixedCaseKey | Backend/db/config.py:81-97 | the exact test is case-sensitive, yet `ItSupport` still reaches `itsupport` through the search |
| ClientModel.SanitizeValue | Backend/models/client_model.py:18-41 | a value that is not text passes unchanged; text is stripped and then cut to the field's limit (100 for the e-mail, 45 for the names, 5, 15, 500, 50, else 255), so it is a prefix of the stripped text of exactly that length |
| ClientModel.SanitizeInput | Backend/models/client_model.py:14-43 | the loop over the items yields, for every key of the input and no other, the sanitised value |
| ClientModel.SanitizedMeaning | Backend/models/client_model.py:14-43 | about `ClientModel.Sanitized`: sanitising keeps exactly the input's keys, keeps `None` and values that are not text, and leaves stripped text within its limit as it is |
| ClientModel.SanitizedTextBounds | Backend/models/client_model.py:25-38 | sanitised text never exceeds its field's limit and never starts with whitespace |
| ClientModel.RequiredErrorMeaning | Backend/models/client_model.py:48-54 | no error exactly when every required field is present with a non-empty value; otherwise the message names the first field in list order that is not, as missing or as empty |
| ClientModel.EmailFormatMeaning | Backend/models/client_model.py:57-60 | the e-mail passes exactly when the stripped address has an '@' with no later '@' and a '.' after it |
| ClientModel.ValidateRequiredFields | Backend/models/client_model.py:46-62 | a missing or empty field is reported first; with all fields filled the only error is "Invalid email format", raised exactly when a given e-mail fails the format test |
| ClientModel.FormatErrorAfterRequired | Backend/models/client_model.py:48-60 | the format error is only reported once every required field is filled |
| ClientModel.NormalizeEmail | Backend/models/client_model.py:69 | the normalised address is at most 255 characters |
| ClientModel.CountEmailPositive | Backend/models/client_model.py:75-83 | the count of rows with the lower-cased address is positive exactly when some row holds it |
| ClientModel.CheckEmail | Backend/models/client_model.py:65-97 | the check answers exactly when the address is text, the website source is text or falsy, and the query does not raise; a `None` address fails on `.strip()`, then a truthy non-text source fails on `.lower()`, then a query failure is reported; an answer looks in the database its website source maps to, reports that database's name and the normalised address, and finds the address exactly when some row of that table holds it case-insensitively |
| ClientModel.LowerMethodError | Backend/db/config.py:74-81 | `source.lower()` raises exactly for a truthy source that is not text (an `int` or `bool`), with Python's message naming the type; falsy values return the default first |
| ClientModel.EmailExistsLegacy | Backend/models/client_model.py:299-302 | the legacy check is true exactly when the check answered and found the address |
| ClientModel.RequiredFor | Backend/models/client_model.py:113-115 | the e-mail and the query are always required, the two names exactly when the address is not yet registered |
| ClientModel.FailureStatus | Backend/models/client_model.py:204-218 | after a rollback the status is `duplicate` exactly when the lower-cased error mentions "duplicate" or "1062", and never `success` |
| ClientModel.FailureResult | Backend/models/client_model.py:207-218 | a failure result carries the classified status and the database's name, and no new-client flag |
| ClientModel.PlanSave | Backend/models/client_model.py:104-126 | the key written to is a configured database, and input that passes validation holds a text e-mail and a query, and both names when the address is new |
| ClientModel.PlanKeyIsCheckKey | Backend/models/client_model.py:122-126 | the key written to is the check's own key whenever the check answered |
| ClientModel.SanitizedEmail | Backend/models/client_model.py:14-69 | a stripped address within the e-mail limit survives sanitising and is its own normal form once lower-cased |
| ClientModel.FewerFieldsStillValid | Backend/models/client_model.py:113-118 | dropping the two names from the required list cannot make valid input invalid |
| ClientModel.ResubmitIsRegistered | Backend/models/client_model.py:100-199 | once a submission is committed, submitting it again finds the address registered in the same database and no longer requires the names |
| ClientModel.SaveResponse | Backend/models/client_model.py:100-218 | `save_client` raises exactly when the `email` key is missing or a validated save cannot connect; it succeeds exactly when validation passes and the transaction commits, reporting the database name and whether the client is new; it reports `duplicate` exactly for a duplicate-key failure; a validation error is returned as `error` with its message |
| ClientModel.ClientStore.constructor | Backend/models/client_model.py:10-11 | every configured database starts with empty tables |
| ClientModel.ClientStore.SaveClient | Backend/models/client_model.py:100-218 | the result is `SaveResponse` and the new tables are `SavedTables` of the old ones; nothing is written unless validation passes and the transaction commits; a commit appends one query row, and one client row exactly when the address was new, to the tables of the chosen database, with the lower-cased address |
| ClientModel.SavedTablesMeaning | Backend/models/client_model.py:100-218 | the tables change exactly when the save reports success; then only the chosen database's tables change, its query table grows by one row holding the lower-cased sanitised address, and its client table grows by one row exactly when the result says the client is new, each keeping its old rows first |
| ClientModel.CommittedTables | Backend/models/client_model.py:145-188 | a committed plan changes only the chosen database's two tables, appending exactly one query row and, for an unregistered address, one client row, after the old rows |
| ClientModel.ClientStore.Insert | Backend/models/client_model.py:145-188 | the client row is appended only for a new address and the query row always, in the chosen database |
| ClientModel.SaveClientDataLegacy | Backend/models/client_model.py:304-313 | the legacy save answers True, "duplicate" or False exactly for the statuses `success`, `duplicate` and `error` |
| ClientModel.SaveQueryDataLegacy | Backend/models/client_model.py:325-328 | the legacy query save is true exactly for `success` |
| ClientModel.Applying | Backend/models/client_model.py:239-253 | exactly the filters with a truthy value and one of the four known keys contribute a condition |
| ClientModel.BuildWhere | Backend/models/client_model.py:236-253 | the loop yields one condition and one parameter per contributing filter, in order: exact case-insensitive e-mail, exact source, and substring `LIKE` on the two names |
| ClientModel.WhereSql | Backend/models/client_model.py:256 | the WHERE part is empty exactly when no filter contributes |
| ClientModel.ListingQueryParams | Backend/models/client_model.py:236-265 | about `ClientModel.ListingQuery`: each parameter of the listing comes from a filter with a truthy value and a known key, each such filter contributes its parameter, and the page query appends the limit then the offset |
| ClientModel.ClientsResponse | Backend/models/client_model.py:227-296 | the listing returns a page exactly for a configured key whose reads succeed; an unknown key is refused with its name and no database, a failed read names the database |
| ClientModel.GetClients | Backend/models/client_model.py:222-296 | an unknown key sends nothing; otherwise the statements sent are `ListingQuery` of the filters and the page (one parameter per contributing filter, then the limit and the offset), and the answer is `ClientsResponse` |
| EmailService.ChainMeaning | Backend/services/email_service.py:46-52 | about `EmailService.Chain`: a fallback chain yields the value of its first present key, `None` included, and the default only when no key of the chain is present |
| EmailService.ChainOfThree | Backend/services/email_service.py:46-50 | a three-key chain tries its keys in order |
| EmailService.ResolveFieldsMeaning | Backend/services/email_service.py:46-52 | the contact form's own keys win over every alias; a lead without any name key reports `N/A`; an absent query falls back to "No query provided" and an absent website source to the database name |
| EmailService.Subject | Backend/services/email_service.py:57-58 | the subject is the client type, " - ", then the website source with every letter upper-cased; a source that is not text raises |
| EmailService.SubjectSourceInCapitals | Backend/services/email_service.py:58 | the source part of the subject holds no lower-case ASCII letter |
| EmailService.ProcessContactEmail | Backend/services/email_service.py:12-177 | a missing API key fails first, then a missing sender or recipient, with their fixed messages and nothing sent; a notification is sent exactly when both checks pass and the subject can be built, carrying the resolved fields and that subject; success holds exactly when the provider answered 200 or 202, and reports the recipient and status; every failure carries an error and no recipient; `success` always equals `email_sent` |
| EmailService.MissingKeyDecidesFirst | Backend/services/email_service.py:21-39 | a missing API key decides the result before the addresses, the data and the provider are looked at |
| EmailService.NullSourceSendsNothing | Backend/services/email_service.py:52-58 | a website source given explicitly as `None` does not fall back to the database name: the subject raises, nothing is sent and the error names the failed `upper` (the exception is caught at lines 167-177) |
| ClientService.Combine | Backend/services/client_service.py:23-77 | the status is `success` exactly for a saved client whose notification went out (`email_sent or success`), `partial_success` exactly for a saved client whose notification failed, `error` otherwise and never `duplicate`; `client_saved` is true exactly after a successful save; the new-client flag defaults to False |
| ClientService.FailedSaveIgnoresMail | Backend/services/client_service.py:20-31 | a failed save decides the result alone: the mail configuration and the provider are never consulted and the client is reported unsaved |
| ClientService.DuplicateBecomesError | Backend/services/client_service.py:23-31 | a duplicate save is reported as `error` with the save's own message |
| ClientService.SavedAndAcceptedIsSuccess | Backend/services/client_service.py:34-77 | a successful save with a working mail configuration and a provider that accepts the message gives `success` naming the recipient |
| ClientService.SubmitClientInfo | Backend/services/client_service.py:14-85 | the result is the combination of the save and, only after a successful save, the notification; the new tables are `SavedTables` of the old ones; exactly the notification of a successful save is sent, and nothing otherwise |
| ClientService.GetClientsInfo | Backend/services/client_service.py:88-102 | the listing returns the model's answer unchanged |
| Controllers.ValidateName | Backend/controllers/client.py:36-41 | a name is refused exactly when it is longer than 100 once stripped; otherwise it is returned stripped, and `None` or `""` unchanged |
| Controllers.ValidateQuery | Backend/controllers/client.py:43-50 | a query is accepted exactly when it has at least 5 characters once stripped and at most 2000 as sent, and is returned stripped; the refusal names which bound failed |
| Controllers.AcceptedQueryBounds | Backend/controllers/client.py:43-50 | an accepted query is between 5 and 2000 characters and not blank |
| Controllers.ValidateWebsiteSource | Backend/controllers/client.py:52-57 | a source is refused exactly when it is longer than 100 as sent; `None` and `""` become "default", anything else is returned stripped |
| Controllers.RequestErrorsMeaning | Backend/controllers/client.py:27-57 | a request is accepted exactly when every validator accepts its field, and every reported error is one of the four validator messages |
| Controllers.ClientFieldsText | Backend/controllers/client.py:205 | the dumped request holds only text or `None` values |
| Controllers.ClientDumpValues | Backend/controllers/client.py:205 | the dumped request carries the request's validated e-mail unchanged, the stripped query and a text website source |
| Controllers.ClientReply | Backend/controllers/client.py:207-214 | the service's `error` becomes 400 and `duplicate` 409, each with the service's message; `success` and `partial_success` are returned as they are |
| Controllers.CreateClient | Backend/controllers/client.py:198-220 | a request a validator refuses gets 422; an accepted one gets the status mapping of the service's result for its dump |
| Controllers.CreateClientNever409 | Backend/controllers/client.py:207-210 | `create_client` never answers 409, because the service never reports `duplicate` |
| Controllers.QueryDump | Backend/controllers/client.py:229-233 | `create_query` hands the service exactly the e-mail, the query and the website source |
| Controllers.QueryReply | Backend/controllers/client.py:237-242 | in `create_query` only `error` becomes 400; every other status is returned as it is |
| Controllers.QueryNeedsRegisteredClient | Backend/controllers/client.py:229-235 | a query for an address registered in no database is refused by the store for its missing first name, because `create_query` sends no names |
| Controllers.CheckEmailReply | Backend/controllers/client.py:101-110 | a model error becomes 500 with its text; otherwise the answer's `exists`, database and e-mail are returned, marked valid |
| Controllers.ListingFilters | Backend/controllers/client.py:128-132 | the listing filters on the e-mail and on the website source, each only when given and non-empty |
| Controllers.GetClientsEndpoint | Backend/controllers/client.py:118-145 | paging outside `1 <= limit <= 1000`, `offset >= 0` is refused with 422; a service error becomes 400 with its message; a page is returned only for a configured database whose reads succeed |
| QueryService.CheckFieldsMeaning | Backend/services/query_service.py:7-10 | the field loop passes exactly when every field is present, non-blank text; a refusal names the first field that is not |
| QueryService.CheckFieldsPass | Backend/services/query_service.py:7-10 | all fields pass exactly when each is present, non-blank text |
| QueryService.CheckFieldsRefusal | Backend/services/query_service.py:7-10 | a refusal names a field that does not pass, after only passing fields |
| QueryService.CheckFieldMeaning | Backend/services/query_service.py:8-10 | one field passes exactly when it is present text that does not strip to nothing, and a refusal of it names it |
| QueryService.FirstRefusalPass | Backend/services/query_service.py:8-10 | the loop over the field tests passes exactly when every test passes |
| QueryService.FirstRefusalAt | Backend/services/query_service.py:8-10 | the loop's refusal is the answer of one test, reached after only passing tests |
| Strings.SpaceSetsDiffer | Backend/services/query_service.py:9 | the white space Python's `strip()` removes differs from JavaScript's `trim()` in exactly U+001C to U+001F and U+0085 (Python only) and U+FEFF (JavaScript only) |
| Strings.PyBlankIsEmptyTrim | Backend/services/query_service.py:9 | a text strips to nothing in Python exactly when every character is Python white space |
| QueryService.QueryResponse | Backend/services/query_service.py:6-20 | a missing or blank field gives ("<field> is required.", 400); a failed save gives ({"error": "Error inserting query"}, 500); 201 exactly when the fields pass and the save succeeds |
| QueryService.ValidationBeforeSave | Backend/services/query_service.py:7-12 | a request that fails the field check gets the same reply whatever the store would have done |
| QueryService.EmailCheckedFirst | Backend/services/query_service.py:7-10 | a request missing both fields is refused for its e-mail |
| QueryService.SubmitQueryInfo | Backend/services/query_service.py:6-20 | the store is untouched and nothing is sent unless the fields pass; then the new tables are `SavedTables` of the old ones, and the notification, with the default new-client flag and database name, is sent exactly with a 201 reply |

## Left out

- The IT-support contact page as written renders no e-mail input. Its change handler (Contact.tsx lines 209-218) is commented out, and the form at lines 618-628 holds only a heading. The page also never renders the title it computes at line 313 and never calls `getEmailBorderColor` (lines 391-396). The model keeps the state, effects and helpers as coded (`SetEmail`, the debounced check, `PageTitle`, `EmailBorderColor`); on this page no user action reaches them.
- Presentational markup: the JSX bodies of the modelled components, and the pages without logic (home, about, services and facilities pages, the footer, the MUI theme objects). The two trivial contact forms of the software and generic pages only keep a three-field record.
- Case mapping is ASCII only: `lower()`, `upper()` and `toLowerCase()` map only `A`–`Z`/`a`–`z`. Unicode case mapping, which can also change a text's length, is not modelled.
- DbConfig.ValidDbName: Python's `str.isalnum()` accepts every Unicode letter and digit (`añadidos`, `データ`, `١٢`). The model accepts only ASCII letters and digits, so `ConfigError` and `ImportValidationIff` refuse such names where the module would import.
- ContactPage.ShouldSchedule: Dafny strings count code points, while `form.email.length > 5` at Contact.tsx:198 counts UTF-16 units. An address with characters outside the Basic Multilingual Plane, such as emoji, can pass the guard in the browser and fail it in the model. Python's `len` counts code points, as the model does.
- ApplyButton.JobIdText: a numeric id is a whole number. A fractional, `NaN` or infinite id, which JavaScript renders in other ways, is not modelled; the job cards pass the ids 1 to 4.
- Controllers.ClientDumpValues: the `email` field of `ClientRequest` and `QueryRequest` stands for the address after Pydantic's `EmailStr` validation, not the text sent. That validation normalises the address: it strips blanks, lower-cases the domain and reduces `Ann <ann@Example.COM>` to `ann@example.com`. The normalisation is library behaviour and is not modelled. The dump, the query's e-mail and the listing's e-mail filter carry the normalised address.
- White space follows each language. The front end uses JavaScript's `trim()`/`\s` set (`Strings.IsSpace`). The back end uses the set of Python's `str.strip()` (`Strings.IsPySpace`).
- React Router percent-decodes the pathname before matching it. The model matches the pathname as given, so an encoded letter such as `%73` in `/%73oftware/home` is not modelled.
- Dates and clocks: `new Date()`, `datetime.now()`, `toISOString()` and `toLocale*String`. "Now", timestamps and closing instants are parameters, and a formatted date is an opaque function. The job application body embeds the date, so it enters `HandleSubmit` as a parameter.
- Timers are modelled as single slots that a method clears or fills, plus methods for the moment a timer fires. The 500 ms, 800 ms, 2 s and 3 s delays and the race between a late answer and a newer address are not modelled.
- `encodeURIComponent` is a function parameter. The `mailto:` links follow section 2 of RFC 6068; the percent-encoding itself is the browser's. The e-mail regular expression is modelled as written, with no claim about RFC 5322.
- Browser side effects are not modelled: `window.open` and its `location.href` fallback, the clipboard, Blob downloads and scrolling. The model returns the link, text or file a handler would hand to the browser.
- SQL is not executed. Tables are sequences of rows in a `ClientStore`. The WHERE builder is modelled down to its clauses and parameters. Neither MySQL collation nor trailing-space comparison is modelled. The listing's `ORDER BY creationdate DESC LIMIT/OFFSET` page is the database's answer, a parameter.
- Connection pooling (`mysql_pool.py`) and transactions are not modelled. A transaction either commits both inserts or rolls both back.
- `client_id`, `query_id` (`lastrowid`) and the echoed e-mail and key fields of the save result are not modelled, and neither are timestamps in results.
- The `db_key not in dbconfigs` branch of `save_client` is not modelled. The key always comes from the website-source mapping, which only yields configured keys (`DbConfig.DatabaseForIsConfigured`), so that branch cannot be taken.
- `get_clients_data_async` is a raw `SELECT` passthrough and is not modelled. The legacy async wrappers of `client_service.py` (`submit_client_info_async`, `get_clients_info_async`) only call the modelled methods.
- The `int()` parse of the port variables is a map from variable to parsed port. A port that does not parse is not modelled; importing the module would then raise.
- Pydantic's `EmailStr` check and FastAPI's own 422 responses are library behaviour. An out-of-range request is modelled as one 422 reply carrying the validator messages.
- The `except Exception` paths of `create_client`, `create_query`, `check_email_exists` and `get_clients` that produce 500 are not modelled. The exceptions that can reach them come from the database and the provider, which are parameters here.
- The `/chat` endpoint and the retrieval engine are foreign AI calls. The `/databases` endpoint only lists the configuration.
- The e-mail notification's HTML and plain-text bodies are not modelled, and neither is the SendGrid client. The provider's answer is a parameter.
- The job application's development-mode prefill, the GDPR dialog's open and closed state, and the apply button's `showFallback` flag are not modelled. None of them affects the modelled handlers.
- ClientModel.CheckEmail: requires the address to be text or `None`. The only callers pass text, or `None` from a dictionary of text fields. Any other value would fail on `.strip()` in the same way as `None`.
- ClientModel.ValidateRequiredFields: requires a given e-mail to be text. A truthy non-text e-mail would make `.strip()` raise out of `save_client`.
- ClientModel.ClientStore.SaveClient: requires every value of the submission to be text or `None` (`TextFields`). That is what both controllers build. Other value kinds are not modelled on this path.
- QueryService.SubmitQueryInfo: requires `TextFields` for the same reason. A non-text field value is modelled only inside the field loop (`StripRaised`).
- ClientService.SubmitClientInfo: requires `TextFields` for the same reason.
