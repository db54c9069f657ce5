# FromOfYou — a verified model of the site's client logic

FromOfYou is a Next.js site backed by Supabase. It lists art exhibitions and places, and it has a small admin area for editors and administrators. This project models the logic that the site's pages and components run in the browser and proves properties about that model:

- how an exhibition's status is derived from its dates and the current instant, and how the public list is sorted and filtered;
- the month calendar that marks the days with exhibitions;
- the admin lists of exhibitions, places and users, with their filters, counts and deletions;
- the forms that create exhibitions, places and categories, including the category slug;
- the image-upload widget, the tag input, the login/sign-up form and the profile page;
- the role flags, the admin gate, the login middleware and the header's navigation.

Backend calls (database queries, storage uploads, authentication) are not modelled. Each becomes a parameter that says how the call turned out, and the model states what the page does in each case.

Layout:

- Helper modules: `Wrappers` (Option), `Strings` (JavaScript `trim`, ASCII case, `startsWith`, `includes`, `split`), `Seqs` (filter, count, subsequence), `Dates` (the proleptic Gregorian calendar on one millisecond timeline), `Files` (file size and type checks, time-stamped storage names) and `Display` (the `a || b` fallback and capitalised initials).
- One module per source file: `Database`, `Exhibitions`, `ExhibitionsCalendar`, `AdminExhibitions`, `ExhibitionCreate`, `PlaceCreate`, `PlaceList`, `UserList`, `ImageUpload`, `TagInput`, `LoginForm`, `MyPage`, `AdminRole`, `AdminGate`, `Middleware` and `Header`.
- Pages that keep React state become classes. Their fields are the state variables and their methods are the handlers. Pure helpers become functions, and their properties are lemmas.

Instants are integers on a millisecond timeline, and a calendar day's midnight is `Dates.MidnightOf`. The public list sorts exhibitions with a stable in-place insertion sort on an array, `Exhibitions.SortInPlace`. It is proved equal to the functional `SortedView`, which is shown to be a sorted, stable permutation.

`Array.prototype.sort` sorts in place, so the array the public page stores (src/app/exhibitions/page.tsx:69-87) is the sorted one. `Exhibitions.ExhibitionsPage.FetchExhibitions` therefore stores the sorted array.

## Model

| member | source | states |
|---|---|---|
| Database.ParseStatus | src/types/database.ts:5 | only the three status names parse, and a parsed status prints back as the same text |
| Database.StatusNameRoundTrip | src/types/database.ts:5 | every status parses back from its name |
| Database.ParseRole | src/types/database.ts:8 | only "user", "editor" and "admin" parse, and a parsed role prints back as the same text |
| Database.RoleNameRoundTrip | src/types/database.ts:8 | every role parses back from its name |
| Database.OperatingHours.With | src/types/database.ts:53-61 | changing one weekday's schedule sets that day and leaves the other six unchanged |
| Database.PlaceThumbnailPath | src/types/database.ts:158-159 | the thumbnail path is the image path for the file "thumbnail.jpg" |
| Database.PlaceImagePathRoundTrip | src/types/database.ts:155-156 | a place id without '/' and the file name are recovered from the storage path |
| Database.DefaultOperatingHours | src/types/database.ts:162-170 | every day opens at 10:00 and closes at 18:00, and only Sunday is closed |
| Database.DefaultPlaceLinks | src/types/database.ts:172-180 | every link kind is present and empty |
| Dates.DaysInMonth | src/components/exhibitions/ExhibitionsCalendar.tsx:24 | a month has 28 to 31 days, and 29 exactly for February of a leap year |
| Dates.Weekday | src/components/exhibitions/ExhibitionsCalendar.tsx:25 | the weekday index lies in 0..6 (Sunday is 0) |
| Dates.EpochIsThursday | src/components/exhibitions/ExhibitionsCalendar.tsx:25 | 1 January 1970 is day 0 and a Thursday |
| Dates.NextPrevRoundTrip | src/components/exhibitions/ExhibitionsCalendar.tsx:30-36 | going to the next month and back, or back and forward, returns to the same month |
| Dates.DaysAreConsecutive | src/components/exhibitions/ExhibitionsCalendar.tsx:94-101 | consecutive days of a month are one day apart on the timeline |
| Dates.WeekdayInMonth | src/components/exhibitions/ExhibitionsCalendar.tsx:94-101 | the weekday of day d is the month's first weekday plus d-1, modulo 7 |
| Dates.NextFirstWeekday | src/components/exhibitions/ExhibitionsCalendar.tsx:25 | the next month starts on the weekday after the last day of this month |
| Files.CheckFile | src/app/mypage/page.tsx:141-150 | a file passes iff it is within the byte limit and its type starts with "image/"; size is checked first |
| Files.StampedNameDigits | src/app/admin/exhibitions/create/page.tsx:121-123 | after the prefix, a stamped name reads its timestamp's digits up to the first '.' |
| Files.StampedNamesDistinct | src/app/admin/exhibitions/create/page.tsx:121-123 | storage names built from different timestamps never collide |
| Files.Extension | src/app/mypage/page.tsx:163-165 | the extension is the suffix of the name after its last '.': it has no '.', and the name has a '.' just before it or is the extension itself |
| Exhibitions.Classify | src/app/exhibitions/page.tsx:127-135 | upcoming iff now is before the start, ended iff now is after the end (and not before the start), ongoing otherwise |
| Exhibitions.ClassifyMonotone | src/app/exhibitions/page.tsx:127-135 | as time moves forward the status never goes back (upcoming, ongoing, ended) |
| Exhibitions.StatusLabel | src/app/exhibitions/page.tsx:137-144 | a known status gets a Korean label, and any other text is shown unchanged |
| Exhibitions.StatusLabelsDistinct | src/app/exhibitions/page.tsx:137-144 | different statuses get different labels |
| Exhibitions.StatusRank | src/app/exhibitions/page.tsx:74 | ongoing ranks 0, upcoming 1, ended 2 |
| Exhibitions.CompareMeaning | src/app/exhibitions/page.tsx:69-85 | the comparator orders by status rank, then by later start first, and is antisymmetric |
| Exhibitions.CompareTransitive | src/app/exhibitions/page.tsx:69-85 | the comparator is transitive |
| Exhibitions.SortedMeaning | src/app/exhibitions/page.tsx:69-85 | in a sorted list ranks never decrease, and within one status later starts come first |
| Exhibitions.InsertPermutes | src/app/exhibitions/page.tsx:69-85 | inserting one exhibition adds exactly that element |
| Exhibitions.InsertSorted | src/app/exhibitions/page.tsx:69-85 | inserting into a sorted list keeps it sorted |
| Exhibitions.SortedViewPermutes | src/app/exhibitions/page.tsx:69-85 | sorting is a permutation |
| Exhibitions.SortedViewSorted | src/app/exhibitions/page.tsx:69-85 | the sorted view is sorted by the comparator |
| Exhibitions.InsertStable | src/app/exhibitions/page.tsx:69-85 | inserting keeps the relative order of elements that compare equal |
| Exhibitions.SortedViewStable | src/app/exhibitions/page.tsx:69-85 | sorting keeps the input order of exhibitions with equal status and start (Array.prototype.sort is stable) |
| Exhibitions.FindSlot | src/app/exhibitions/page.tsx:69-85 | the scan finds the slot where inserting into the sorted prefix puts the element |
| Exhibitions.InsertAt | src/app/exhibitions/page.tsx:69-85 | one insertion step turns the prefix a[..i+1] into the insertion of a[i] into the sorted a[..i] |
| Exhibitions.SortInPlace | src/app/exhibitions/page.tsx:69-85 | the array ends up equal to the sorted view of its old contents |
| Exhibitions.FilterViewSubseq | src/app/exhibitions/page.tsx:95-124 | the filtered list is a subsequence of the list, in the same order |
| Exhibitions.FilterViewNoFilters | src/app/exhibitions/page.tsx:95-124 | with no date, status "all" and an empty search the whole list is shown |
| Exhibitions.FilterViewMembers | src/app/exhibitions/page.tsx:95-124 | an exhibition is shown iff it is in the list, spans the chosen date, has the chosen computed status and matches the search |
| Exhibitions.NoDescriptionNeverMatches | src/app/exhibitions/page.tsx:116-122 | without a description only title and location are searched, case-insensitively |
| Exhibitions.CountsSumToTotal | src/app/exhibitions/page.tsx:192-194 | the ongoing, upcoming and ended counts add up to the list's length |
| Exhibitions.ExhibitionsPage.constructor | src/app/exhibitions/page.tsx:36-43 | the page starts empty, unfiltered and loading |
| Exhibitions.ExhibitionsPage.FetchExhibitions | src/app/exhibitions/page.tsx:53-93 | on success the fetched array is sorted in place and stored; on error the old list stays; loading ends either way |
| Exhibitions.ExhibitionsPage.FilterExhibitions | src/app/exhibitions/page.tsx:95-124 | the shown list becomes the filter view of the stored list and nothing else changes |
| ExhibitionsCalendar.ExhibitionCount | src/components/exhibitions/ExhibitionsCalendar.tsx:46-52 | the count is at most the list's length, and positive iff some exhibition spans the day |
| ExhibitionsCalendar.CountMatchesPageFilter | src/components/exhibitions/ExhibitionsCalendar.tsx:46-52 | the day's count equals the size of the public page's list filtered by that date |
| ExhibitionsCalendar.IsSelectedDate | src/components/exhibitions/ExhibitionsCalendar.tsx:54-59 | a day is selected iff it equals the selected date |
| ExhibitionsCalendar.Calendar.constructor | src/components/exhibitions/ExhibitionsCalendar.tsx:22 | the calendar opens on today's month |
| ExhibitionsCalendar.Calendar.PrevMonth | src/components/exhibitions/ExhibitionsCalendar.tsx:30-32 | the month moves back by one, across year ends |
| ExhibitionsCalendar.Calendar.NextMonth | src/components/exhibitions/ExhibitionsCalendar.tsx:34-36 | the month moves forward by one, across year ends |
| ExhibitionsCalendar.Calendar.DateOf | src/components/exhibitions/ExhibitionsCalendar.tsx:94-101 | a day number names that day of the shown month |
| ExhibitionsCalendar.Calendar.SelectDate | src/components/exhibitions/ExhibitionsCalendar.tsx:61-66 | a day without exhibitions does nothing; clicking the selected day clears the selection; any other day becomes selected |
| ExhibitionsCalendar.Calendar.SelectTwiceClears | src/components/exhibitions/ExhibitionsCalendar.tsx:61-66 | selecting a day and then clicking it again clears the selection |
| ExhibitionsCalendar.Calendar.DayCell | src/components/exhibitions/ExhibitionsCalendar.tsx:102-111 | a day's button is disabled iff no exhibition spans it and is marked iff selected; it carries the day's exhibition count, which the page computes but does not render |
| ExhibitionsCalendar.Calendar.DayButtons | src/components/exhibitions/ExhibitionsCalendar.tsx:94-101 | the buttons are one per remaining day of the month, in order |
| ExhibitionsCalendar.Calendar.FirstDayOfMonth | src/components/exhibitions/ExhibitionsCalendar.tsx:25 | the first day's weekday lies in 0..6 |
| ExhibitionsCalendar.Calendar.Grid | src/components/exhibitions/ExhibitionsCalendar.tsx:94-101 | the grid is one blank per weekday before the 1st, followed by the month's days in order |
| ExhibitionsCalendar.Calendar.GridColumnIsWeekday | src/components/exhibitions/ExhibitionsCalendar.tsx:94-101 | every day button sits in the column of its weekday |
| ExhibitionsCalendar.Calendar.DisabledIffNoExhibition | src/components/exhibitions/ExhibitionsCalendar.tsx:111 | a day button in the grid is disabled iff no exhibition spans its day |
| ExhibitionsCalendar.EndDayBoundary | src/components/exhibitions/ExhibitionsCalendar.tsx:38-44 | an exhibition ending at a day's midnight is marked on that day although it counts as ended from the next instant |
| AdminExhibitions.StatusBadgeVariant | src/app/admin/exhibitions/page.tsx:115-122 | "ongoing" gets the default badge, "upcoming" the secondary one, anything else the outline |
| AdminExhibitions.StatusBadgesDistinct | src/app/admin/exhibitions/page.tsx:115-122 | different statuses get different badges |
| AdminExhibitions.StatusCell | src/app/admin/exhibitions/page.tsx:343 | the table's status cell shows the label and badge of the status computed from the dates |
| AdminExhibitions.StoredStatusNotShown | src/app/admin/exhibitions/page.tsx:343 | the stored status column never changes what the table shows |
| AdminExhibitions.AdminMatchesArePublicMatches | src/app/admin/exhibitions/page.tsx:79-84 | whatever the admin search matches the public search matches too |
| AdminExhibitions.DescriptionNotSearched | src/app/admin/exhibitions/page.tsx:79-84 | the admin search ignores the description |
| AdminExhibitions.AdminFilterMembers | src/app/admin/exhibitions/page.tsx:67-87 | a row is shown iff it is in the list, has the chosen computed status and its title or location matches |
| AdminExhibitions.AdminFilterSubseq | src/app/admin/exhibitions/page.tsx:67-87 | the shown rows are a subsequence of the list |
| AdminExhibitions.AdminCountsSumToTotal | src/app/admin/exhibitions/page.tsx:225-257 | the three status counts add up to the list's length |
| AdminExhibitions.AdminExhibitionsPage.constructor | src/app/admin/exhibitions/page.tsx:45-49 | the page starts empty, unfiltered and loading |
| AdminExhibitions.AdminExhibitionsPage.Fetch | src/app/admin/exhibitions/page.tsx:89-113 | an error empties the list, success stores the rows (none if null), and loading ends |
| AdminExhibitions.AdminExhibitionsPage.ApplyFilters | src/app/admin/exhibitions/page.tsx:67-87 | the shown rows become the admin filter view and nothing else changes |
| AdminExhibitions.AdminExhibitionsPage.DeleteExhibition | src/app/admin/exhibitions/page.tsx:151-176 | a delete is sent iff confirmed, and only a successful one refetches the list |
| ExhibitionCreate.Check | src/app/admin/exhibitions/create/page.tsx:88-112 | the first failing check, in order: title, location, start date, end date, end not after start |
| ExhibitionCreate.EqualDatesRejected | src/app/admin/exhibitions/create/page.tsx:109-112 | an end date equal to the start date is rejected |
| ExhibitionCreate.RecordOf | src/app/admin/exhibitions/create/page.tsx:143-153 | the inserted row has trimmed non-empty title and location, a trimmed description or null, start before end, and status "upcoming" |
| ExhibitionCreate.ThumbnailPath | src/app/admin/exhibitions/create/page.tsx:121-123 | thumbnails go under "exhibitions/exhibition-" |
| ExhibitionCreate.ThumbnailPathsDistinct | src/app/admin/exhibitions/create/page.tsx:121-123 | uploads at different timestamps get different paths |
| ExhibitionCreate.CreateExhibitionPage.constructor | src/app/admin/exhibitions/create/page.tsx:36-45 | the form starts empty and nothing is saving |
| ExhibitionCreate.CreateExhibitionPage.HandleThumbnailChange | src/app/admin/exhibitions/create/page.tsx:56-80 | a file over 5 MiB or not an image is refused and the form is unchanged; an acceptable file becomes the thumbnail |
| ExhibitionCreate.CreateExhibitionPage.SaveExhibition | src/app/admin/exhibitions/create/page.tsx:83-171 | an invalid form sends nothing; a failed upload stops before the insert; otherwise the insert carries the record and the uploaded URL; the flags are cleared at the end |
| PlaceCreate.ReplaceDisallowed | src/app/admin/places/create/page.tsx:115-119 | the replacement keeps the length of the name |
| PlaceCreate.ReplaceDisallowedChars | src/app/admin/places/create/page.tsx:115-119 | lower-case ASCII letters, digits and Hangul syllables stay, and every other character becomes '_' |
| PlaceCreate.ReplaceDisallowedKeepsSlugChars | src/app/admin/places/create/page.tsx:115-119 | apart from the '_' it writes, the replacement keeps exactly the slug characters, in order |
| PlaceCreate.CollapseKeepsNonUnderscores | src/app/admin/places/create/page.tsx:115-119 | collapsing removes only '_': every other character stays, in order |
| PlaceCreate.StripEdgesKeepsNonUnderscores | src/app/admin/places/create/page.tsx:115-119 | stripping removes only '_': every other character stays, in order |
| PlaceCreate.SlugKeepsContent | src/app/admin/places/create/page.tsx:115-119 | the slug's non-'_' characters are exactly the lower-cased name's slug characters, in order |
| PlaceCreate.CollapseUnderscores | src/app/admin/places/create/page.tsx:115-119 | collapsing runs keeps emptiness and the first character |
| PlaceCreate.CollapseLeavesNoDouble | src/app/admin/places/create/page.tsx:115-119 | after collapsing no two '_' are adjacent, and the last character is kept |
| PlaceCreate.CollapseKeepsChars | src/app/admin/places/create/page.tsx:115-119 | collapsing introduces no new character |
| PlaceCreate.CollapseNothingToDo | src/app/admin/places/create/page.tsx:115-119 | a text without "__" is unchanged by collapsing |
| PlaceCreate.StripEdges | src/app/admin/places/create/page.tsx:115-119 | stripping the edge '_' never lengthens the text |
| PlaceCreate.StripEdgesWellFormed | src/app/admin/places/create/page.tsx:115-119 | after stripping, the text neither starts nor ends with '_' |
| PlaceCreate.StripEdgesNothingToDo | src/app/admin/places/create/page.tsx:115-119 | a text without edge '_' is unchanged by stripping |
| PlaceCreate.SlugIsWellFormed | src/app/admin/places/create/page.tsx:115-119 | every slug uses only slug characters and '_', has no "__" and no edge '_' |
| PlaceCreate.SlugOfSlug | src/app/admin/places/create/page.tsx:115-119 | a well-formed slug is its own slug |
| PlaceCreate.SlugIdempotent | src/app/admin/places/create/page.tsx:115-119 | slugging a slug changes nothing |
| PlaceCreate.TrimOrNull | src/app/admin/places/create/page.tsx:169-183 | a blank optional field is stored as null, any other as its trimmed text |
| PlaceCreate.ApplyEdit | src/app/admin/places/create/page.tsx:197-208 | an edit sets exactly the chosen part of a day's schedule |
| PlaceCreate.ChosenAddress | src/app/admin/places/create/page.tsx:78-82 | the road address is preferred, else the lot address |
| PlaceCreate.DialogCategory | src/app/admin/places/create/page.tsx:121-129 | a new category has the trimmed name, a well-formed slug of that name and a description or null |
| PlaceCreate.CreatePlacePage.constructor | src/app/admin/places/create/page.tsx:26-48 | the form starts with empty fields, the default hours and links, and no errors |
| PlaceCreate.CreatePlacePage.HandleCreateCategory | src/app/admin/places/create/page.tsx:108-147 | a blank name inserts nothing; a successful insert appends the category, selects it and closes the dialog; a failure changes nothing else |
| PlaceCreate.CreatePlacePage.HandleSubmit | src/app/admin/places/create/page.tsx:150-194 | the errors name exactly the blank name, the missing category and the blank address, and the place is inserted iff there are none |
| PlaceCreate.CreatePlacePage.UpdateOperatingHours | src/app/admin/places/create/page.tsx:197-208 | only the chosen day's schedule changes, by the chosen edit |
| PlaceCreate.CreatePlacePage.UpdateLink | src/app/admin/places/create/page.tsx:211-219 | only the chosen link changes |
| PlaceCreate.CreatePlacePage.SelectAddress | src/app/admin/places/create/page.tsx:78-90 | the chosen address and lot address are filled in and the address error is cleared |
| PlaceList.PlaceFilterMembers | src/app/admin/places/page.tsx:84-102 | a place is shown iff it is in the list, is in the chosen category and its name, address or description matches |
| PlaceList.PlaceFilterSubseq | src/app/admin/places/page.tsx:84-102 | the shown places are a subsequence of the list |
| PlaceList.PlaceFilterNoFilters | src/app/admin/places/page.tsx:84-102 | with category "all" and an empty search every place is shown |
| PlaceList.MissingFieldsNeverMatch | src/app/admin/places/page.tsx:93-99 | a place with no address and no description is found by its name alone |
| PlaceList.WithoutIdDropsExactly | src/app/admin/places/page.tsx:76 | removal drops exactly the places with that id and keeps the others in order |
| PlaceList.CategoryCards | src/app/admin/places/page.tsx:169-176 | at most three category cards, each counting the places of its category |
| PlaceList.CardCountIsCategoryFilter | src/app/admin/places/page.tsx:169-176 | a card's count is the number of places the category filter would show |
| PlaceList.PlacesPage.constructor | src/app/admin/places/page.tsx:19-26 | the page starts empty, unfiltered and loading |
| PlaceList.PlacesPage.FetchPlaces | src/app/admin/places/page.tsx:31-61 | an error from either query sets the error text and keeps the lists; otherwise both lists are stored; loading ends |
| PlaceList.PlacesPage.ApplyFilters | src/app/admin/places/page.tsx:84-102 | the shown places become the filter view |
| PlaceList.PlacesPage.HandleDelete | src/app/admin/places/page.tsx:64-81 | a delete is sent iff confirmed, and only a successful one removes the place from the list |
| UserList.RoleLabel | src/app/admin/users/page.tsx:127-133 | admin and editor get their Korean labels, and any other role the general-user label |
| UserList.RoleBadgeVariant | src/app/admin/users/page.tsx:119-125 | admin gets the default badge, editor the secondary one, any other the outline |
| UserList.RolesShownDistinctly | src/app/admin/users/page.tsx:119-133 | different roles get different labels and badges |
| UserList.ShownName | src/app/admin/users/page.tsx:310 | the display name if non-empty, else the name if non-empty, else "이름 없음" |
| UserList.Initial | src/app/admin/users/page.tsx:304 | the initial is the capitalised first letter of the name, else of the email |
| UserList.UserFilterMembers | src/app/admin/users/page.tsx:63-81 | a user is shown iff in the list, of the chosen role and matched by email, name or display name |
| UserList.UserFilterSubseq | src/app/admin/users/page.tsx:63-81 | the shown users are a subsequence of the list |
| UserList.NullNamesNeverMatch | src/app/admin/users/page.tsx:72-78 | a user without names is found by email alone |
| UserList.RoleCountsSumToTotal | src/app/admin/users/page.tsx:173-205 | with valid roles the admin, editor and user counts add up to the list's length |
| UserList.UsersPage.constructor | src/app/admin/users/page.tsx:41-45 | the page starts empty, unfiltered and loading |
| UserList.UsersPage.FetchUsers | src/app/admin/users/page.tsx:83-117 | an error keeps the old list, success stores the rows, and loading ends |
| UserList.UsersPage.ApplyFilters | src/app/admin/users/page.tsx:63-81 | the shown users become the filter view |
| ImageUpload.ValidateFile | src/components/common/ImageUpload.tsx:39-49 | a file passes iff it is at most maxSize MiB and an image; size is checked first |
| ImageUpload.ErrorsOf | src/components/common/ImageUpload.tsx:64-71 | there is at most one error per file |
| ImageUpload.NoErrorsIffAllAcceptable | src/components/common/ImageUpload.tsx:64-76 | there are no errors iff every file passes validation |
| ImageUpload.FilesOutcomeMeaning | src/components/common/ImageUpload.tsx:52-84 | too many files in total is silently ignored; any invalid file alerts; otherwise single mode keeps the first new file and multiple mode appends them all |
| ImageUpload.MultipleStaysWithinLimit | src/components/common/ImageUpload.tsx:57-61 | in multiple mode an accepted change keeps current plus existing files within maxFiles |
| ImageUpload.HandleFiles | src/components/common/ImageUpload.tsx:52-84 | the validation loop yields the outcome the specification function gives |
| ImageUpload.SingleModeCannotReplace | src/components/common/ImageUpload.tsx:57-61 | with maxFiles 1 and one current file, a new file is ignored in single mode |
| ImageUpload.IntendedSingleModeReplaces | src/components/common/ImageUpload.tsx:78-80 | in the corrected count a valid file replaces the current one in single mode |
| ImageUpload.IntendedAgreesWhenMultiple | src/components/common/ImageUpload.tsx:57-61 | the corrected count changes nothing in multiple mode |
| ImageUpload.RemoveFile | src/components/common/ImageUpload.tsx:115-118 | removing an index drops exactly that file and keeps the others in order; an index out of range changes nothing |
| TagInput.AddTag | src/app/write/components/TagInput.tsx:11-19 | a blank or already present trimmed input leaves the tags unchanged; otherwise the trimmed input is appended |
| TagInput.AddTagKeepsDistinct | src/app/write/components/TagInput.tsx:14-15 | adding keeps the tags free of duplicates |
| TagInput.RemoveTag | src/app/write/components/TagInput.tsx:21-23 | removing never lengthens the list and the tag is gone afterwards |
| TagInput.RemoveTagExactly | src/app/write/components/TagInput.tsx:21-23 | exactly the copies of the tag are removed and the rest keep their order |
| TagInput.RemoveUndoesAdd | src/app/write/components/TagInput.tsx:11-23 | removing a newly added tag restores the list |
| TagInput.RemoveKeepsDistinct | src/app/write/components/TagInput.tsx:21-23 | removing keeps the tags free of duplicates |
| TagInput.TagEditor.constructor | src/app/write/components/TagInput.tsx:11-23 | the editor starts with the given tags and an empty input |
| TagInput.TagEditor.HandleKeyDown | src/app/write/components/TagInput.tsx:11-19 | Enter or ',' with a non-blank input adds the tag and clears the input; any other key changes nothing; no duplicates appear |
| TagInput.TagEditor.Remove | src/app/write/components/TagInput.tsx:21-23 | the tags become the list without that tag, still without duplicates |
| LoginForm.EmailError | src/components/auth/email-login-form.tsx:21-24 | an email is accepted iff non-empty and well formed, and an empty one asks for input first |
| LoginForm.LoginPasswordError | src/components/auth/email-login-form.tsx:25-27 | a sign-in password is accepted iff it has at least 6 characters |
| LoginForm.NameError | src/components/auth/email-login-form.tsx:31-34 | a name is accepted iff it has at least 2 characters |
| LoginForm.FirstLine | src/components/auth/email-login-form.tsx:39-46 | the part a regular expression's '.' can scan is a prefix without line terminators |
| LoginForm.SignUpPasswordError | src/components/auth/email-login-form.tsx:39-46 | a sign-up password is accepted iff it has at least 6 characters and a letter and a digit in its first line |
| LoginForm.ConfirmationError | src/components/auth/email-login-form.tsx:47-51 | the confirmation is accepted iff non-empty and equal to the password |
| LoginForm.SignUpAcceptedMeans | src/components/auth/email-login-form.tsx:30-51 | the sign-up form validates iff every field rule and the match rule pass |
| LoginForm.StrengthMarks | src/components/auth/email-login-form.tsx:241-255 | the marks show iff a password is typed, and the length mark means at least 6 characters |
| LoginForm.FirstLineOfSingleLine | src/components/auth/email-login-form.tsx:39-46 | a password without line terminators is its own first line |
| LoginForm.MarksAgreeWithRules | src/components/auth/email-login-form.tsx:241-255 | for a one-line password the three marks are all set iff the sign-up rule accepts it |
| LoginForm.RulesImplyMarks | src/components/auth/email-login-form.tsx:241-255 | every accepted password shows all three marks |
| LoginForm.LineBreakHidesDigit | src/components/auth/email-login-form.tsx:39-46 | "abcdef", a line break and "1" shows all marks but is rejected |
| LoginForm.FirstLineStopsAtBreak | src/components/auth/email-login-form.tsx:39-46 | the first line ends at the first line break |
| LoginForm.MatchMark | src/components/auth/email-login-form.tsx:271-285 | the match mark shows iff both fields are filled and is positive iff they agree |
| LoginForm.Toggled | src/components/auth/email-login-form.tsx:297-304 | toggling always changes the mode |
| LoginForm.EmailLoginCard.constructor | src/components/auth/email-login-form.tsx:58-60 | the card starts in sign-in mode with no error and empty forms |
| LoginForm.EmailLoginCard.HandleLogin | src/components/auth/email-login-form.tsx:88-107 | success clears the error, a returned error is shown, a thrown one shows the generic message; loading ends |
| LoginForm.EmailLoginCard.HandleSignUp | src/components/auth/email-login-form.tsx:109-135 | differing passwords stop before the call; otherwise the outcome sets the error and the email notice; loading ends |
| LoginForm.EmailLoginCard.SubmitLogin | src/components/auth/email-login-form.tsx:19-28 | sign-in is called iff the form validates, so never with a password under 6 characters |
| LoginForm.EmailLoginCard.SubmitSignUp | src/components/auth/email-login-form.tsx:30-51 | sign-up is called iff the form validates and the passwords match |
| LoginForm.EmailLoginCard.ToggleMode | src/components/auth/email-login-form.tsx:297-304 | the mode flips, the error clears and both forms reset |
| MyPage.Shown | src/app/mypage/page.tsx:58-65 | a missing field is shown as the empty text |
| MyPage.Stored | src/app/mypage/page.tsx:95-102 | an empty input is saved as null, any other as itself |
| MyPage.SaveUneditedRestores | src/app/mypage/page.tsx:56-102 | saving an unedited form writes back the profile's own editable fields |
| MyPage.ReloadShowsSavedForm | src/app/mypage/page.tsx:56-102 | after a save, loading the form again shows what was saved |
| MyPage.GaugeFields | src/app/mypage/page.tsx:223-233 | the gauge looks at five fields |
| MyPage.Completeness | src/app/mypage/page.tsx:223-233 | completeness is 20 percent per filled field, a multiple of 20 up to 100 |
| MyPage.CompletenessExtremes | src/app/mypage/page.tsx:223-233 | 100 iff all five fields are filled, 0 iff none is |
| MyPage.DisplayName | src/app/mypage/page.tsx:218 | the name shown is never empty: display name, else name, else the email's part before '@', else the default |
| MyPage.OldAvatarPath | src/app/mypage/page.tsx:153-160 | the old avatar is removed iff the URL's last segment contains "avatar-", at the user's folder |
| MyPage.AvatarPath | src/app/mypage/page.tsx:163-165 | a new avatar is stored under the user's folder |
| MyPage.NextUploadRemovesThisAvatar | src/app/mypage/page.tsx:153-165 | the next upload removes exactly the avatar this upload stored |
| MyPage.MyPageState.constructor | src/app/mypage/page.tsx:34-44 | the page starts with the given profile, an empty form and no flags |
| MyPage.MyPageState.LoadForm | src/app/mypage/page.tsx:56-67 | the form shows the loaded profile |
| MyPage.MyPageState.StartEditing | src/app/mypage/page.tsx:70-72 | editing starts |
| MyPage.MyPageState.CancelEditing | src/app/mypage/page.tsx:75-88 | editing stops and the form returns to the profile |
| MyPage.MyPageState.SaveProfile | src/app/mypage/page.tsx:91-119 | the form's fields are sent; success ends editing, failure keeps it; saving ends |
| MyPage.MyPageState.UploadAvatar | src/app/mypage/page.tsx:122-201 | no user, no file or an unacceptable file calls nothing; otherwise the old avatar is removed, the new one uploaded and the URL saved |
| Display.OrElse | src/components/layout/Header.tsx:67 | the first text if non-empty, else the fallback |
| Display.UpperInitial | src/components/layout/Header.tsx:70-72 | the capitalised first character, empty for an empty text |
| Display.EmailLocalPart | src/components/layout/Header.tsx:67 | the email's prefix that ends at its first '@' or at its end, present iff the email is; the whole email if it has no '@' |
| Display.AvatarInitial | src/app/mypage/page.tsx:219-220 | one upper-case character: the name's initial, else the email's, else "U" |
| AdminRole.Flags | src/hooks/use-admin.ts:7-15 | admin iff the role is admin, editor iff editor or admin, user iff a profile exists |
| AdminRole.FlagsAreOrdered | src/hooks/use-admin.ts:7-9 | every admin is an editor and every editor a user |
| AdminGate.HasPermission | src/components/admin/AdminOnly.tsx:38 | allowed iff admin, or editor when editors are allowed |
| AdminGate.Decide | src/components/admin/AdminOnly.tsx:17-57 | loading shows a spinner; otherwise the screen shows iff permitted, and a refusal both shows the denial and redirects |
| AdminGate.GateByRole | src/components/admin/AdminOnly.tsx:13-57 | the screen shows iff the role is admin, or editor when editors are allowed |
| Middleware.Decide | middleware.ts:36-53 | a protected path without a user goes to login carrying the path; the login page with a user goes home; everything else passes |
| Middleware.LoginIsNotProtected | middleware.ts:36-51 | the login page itself is never redirected to login |
| Middleware.PrefixNotSegment | middleware.ts:36-39 | "/writer" counts as protected because the test is a plain prefix |
| Middleware.SubpathsAreProtected | middleware.ts:36-39 | every path under a protected path is protected |
| Header.HomeLinkExact | src/components/layout/Header.tsx:43-46 | "/" is active only on the home page, and there no other link is |
| Header.ActiveBelow | src/components/layout/Header.tsx:43-46 | a link other than home stays active on every path below it |
| Header.HeaderName | src/components/layout/Header.tsx:67 | never empty: the profile name if non-empty, else the email's non-empty local part, else "사용자" |
| Header.RoleLabel | src/components/layout/Header.tsx:139-143 | a label shows iff the role is editor or admin |
| Header.Menu | src/components/layout/Header.tsx:94-98 | the admin link shows iff admin; the management panel and its label show iff editor or admin |

## Left out

- Backend calls (database queries, storage uploads, authentication) are parameters that give the call's outcome. The model does not include their wire format, and the `catch` paths are folded into the failure outcomes.
- The clock: `Date.now()` and `new Date()` are parameters. Time zones and the parsing of date strings are not modelled; dates are already days or instants on one timeline.
- Floating point, locale formatting (`toLocaleDateString`, file sizes with `toFixed`), and the geocoding stub that returns fixed coordinates. `Math.round(k/5*100)` in the profile gauge is exact for k up to 5, so it is modelled as 20·k.
- zod's `.email()` is a parameter `isEmail`. zod's `.min` counts UTF-16 code units while the model counts characters; they differ only outside the basic multilingual plane.
- Case conversion and case-insensitive search use ASCII case only; JavaScript's full Unicode case mapping is not modelled.
- Third-party widgets (the postcode search, the rich-text editor, the image uploader of the editor) and React mechanics (alerts, confirm dialogs, effect timing, open menus, drag state, the file-reader preview).
- The login, simple sign-up and admin dashboard pages, `use-auth.ts`, and the middleware's matcher and cookie plumbing. These are not part of this model.
- The pages' own admin redirects, `isToday` and `getStatusColor` are presentation only.
- LoginForm.EmailLoginCard.ToggleMode: the toggle button is disabled while a request is loading; that guard is in the markup and not modelled.
- MyPage.MyPageState.SaveProfile: what `updateProfile` does to the shared profile state lives in `use-auth.ts` and is not modelled; the method states what is sent.
- ImageUpload.HandleFiles: the error pushed when too many files are chosen is never shown, and the model returns `Ignored` without it.

## Findings

| source | as written | input that shows it | evidently intended | confidence | as-written member | corrected member |
|---|---|---|---|---|---|---|
| src/components/common/ImageUpload.tsx:57-61 (with the caller src/app/admin/places/[id]/edit/page.tsx:676-684) | the total-count check adds the current files even in single mode, and the too-many error is pushed but never shown | single mode, maxFiles 1, one current thumbnail, one valid new image | in single mode the new file replaces the current one (the comment at line 78 says so) | not executed | ImageUpload.SingleModeCannotReplace | ImageUpload.IntendedSingleModeReplaces |

`ImageUpload.HandleFiles` and `ImageUpload.FilesOutcome` follow the code as written. `ImageUpload.FilesOutcomeIntended` counts the current files only in multiple mode. `ImageUpload.IntendedAgreesWhenMultiple` shows it differs from the code only in single mode.
