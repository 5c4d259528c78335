# 남편응급실 (husband-er) — a Dafny model of its client logic

husband-er is a Next.js community site for married men. Its decision logic
sits in the page components. This project models that logic in Dafny and
proves properties of it. The model covers:

- **Profanity check**: a fixed list of twenty words, searched in the raw text
  and in the text with white space and punctuation removed.
- **Husband exam**: three questions. Each answer adds its option's score,
  and the final score gives a rank and a pass mark.
- **Mock store**: the community's in-memory post list, mirrored into one
  browser-storage slot.
- **Community board**: the category tabs, the badges and labels, and the
  link targets with and without a session.
- **Home page**: the "hot posts" preview, which shows five posts with a
  session and four without, the fourth one locked.
- **Write page**: its guard, the blank-field validation, and the record a
  new post is stored as.
- **Admin pages**:
  - the layout's guard, render decision, active link and page title;
  - the dashboard's own admin check;
  - the user table: role and status updates, counts, labels and buttons;
  - the post table: normalisation, deletion and category names.
- **Panic overlay**: Escape toggles a fake spreadsheet over the page, and a
  double-click closes it.
- **Nickname generator**: `"<adjective> <noun> <number>호"`.

Each source file is one module:

| Module | Source file |
|---|---|
| `Profanity` | `src/utils/profanity.ts` |
| `Exam` | `src/app/exam/page.tsx` |
| `MockStore` | `src/hooks/useMockStore.ts` |
| `Community` | `src/app/community/page.tsx` |
| `Home` | `src/app/page.tsx` |
| `WritePage` | `src/app/write/page.tsx` |
| `AdminLayout` | `src/app/admin/layout.tsx` |
| `AdminDashboard` | `src/app/admin/page.tsx` |
| `AdminUsers` | `src/app/admin/users/page.tsx` |
| `AdminPosts` | `src/app/admin/posts/page.tsx` |
| `PanicOverlay` | `src/components/PanicOverlay.tsx` |
| `Nickname` | `src/utils/nicknameGenerator.ts` |

Four shared modules hold what several pages use:

- `JsValues`: missing values, and the `value || fallback` truthiness rules.
- `Text`: ECMAScript white space, `includes`, `startsWith`, `trim`, and
  decimal rendering.
- `Seqs`: `Array.prototype.filter`.
- `Session`: the session status and the session user.

State follows the source:

- **Classes** model the parts that a handler updates in place. Each field
  is a state variable of the component, and each method is a handler or
  an effect:
  - `MockStore.Store`
  - `Exam.HusbandExam`
  - `WritePage.WriteForm`
  - `AdminUsers.UserManagement`
  - `AdminPosts.PostManagement`
  - `AdminDashboard.Dashboard`
  - `PanicOverlay.Overlay`
- **Parameters** stand in for what the code asks of the outside world:
  - the document store's answers: a snapshot, or whether a write
    succeeded;
  - the answer to a `confirm` dialog;
  - `Date.now()` and today's date;
  - the random draws.

The home page copies its badge and label switches from the community page
unchanged (src/app/page.tsx:34-50). The model defines them once, in
`Community`, and `Home` uses them.

The admin layout's guard effect sends a session without the admin role to
`/admin/login` (src/app/admin/layout.tsx:27-30), and the comment above the
render gate says it shows nothing "while checking auth"
(src/app/admin/layout.tsx:38). The gate itself tests only that the status is
settled and that a session exists (src/app/admin/layout.tsx:39), so a
non-admin session gets the shell and the page while the redirect is pending.
The model follows the code and records the difference under Findings.

## Model

| member | source | states |
|---|---|---|
| JsValues.StringOr | src/app/admin/posts/page.tsx:40 | `v \|\| fallback` on a string gives the fallback exactly when the value is missing or empty, and the value otherwise |
| JsValues.NumberOr | src/app/admin/posts/page.tsx:41 | `v \|\| fallback` on a number gives the fallback when the value is missing or 0 |
| JsValues.NumberOrZero | src/app/page.tsx:92 | with fallback 0, `v \|\| 0` is the value when present and 0 when missing |
| Text.Trim | src/app/write/page.tsx:37 | the trimmed text is a slice of the input with no white space at either end, and everything cut off before and after it is white space |
| Text.TrimEmptyIffBlank | src/app/write/page.tsx:37 | `trim()` gives the empty string exactly when every character is ECMAScript white space |
| Text.DecimalRoundTrip | src/utils/nicknameGenerator.ts:19 | reading back the decimal digits a number is written with gives the number |
| Text.IntToDecimalInjective | src/app/community/page.tsx:86 | distinct integers are written as distinct decimal strings |
| Profanity.Clean | src/utils/profanity.ts:17 | the cleaned text is no longer than the input, has none of the stripped characters, and keeps every other character |
| Profanity.CleanIdempotent | src/utils/profanity.ts:17 | cleaning a cleaned text changes nothing |
| Profanity.FirstMatch | src/utils/profanity.ts:19-23 | the index found is the first list entry the raw or cleaned text contains; none is found only when no entry matches |
| Profanity.CheckProfanity | src/utils/profanity.ts:13-26 | empty text is clean with no word; `hasProfanity` holds exactly when a word is reported; the reported word is a list entry that matches and no earlier entry matches; a clean non-empty text matches no entry |
| Profanity.BadWordIsHangul | src/utils/profanity.ts:5-8 | every list entry is a non-empty run of Hangul syllables |
| Profanity.HangulIsKept | src/utils/profanity.ts:17 | cleaning never removes a Hangul syllable |
| Profanity.AnyMatchIsReported | src/utils/profanity.ts:19-22 | if any list entry occurs in the raw or cleaned text, the text is reported as profane |
| Profanity.CleanSpaced | src/utils/profanity.ts:16-17 | separators made of stripped characters between a word's letters vanish in the cleaned text |
| Profanity.CleanAppend | src/utils/profanity.ts:17 | cleaning a concatenation cleans each part: the cleaned text of `a + b` is the cleaned `a` followed by the cleaned `b` |
| Profanity.SpacedBadWordMatches | src/utils/profanity.ts:16-20 | a list entry written with a separator of stripped characters between each two letters, a different one at each gap, still matches that entry wherever it sits in a longer message |
| Profanity.SpacedBadWordDetected | src/utils/profanity.ts:16-22 | such a spaced entry, with any text before and after it, makes the message profane |
| Profanity.FirstEntryReported | src/utils/profanity.ts:19-21 | whenever the first entry matches, it is the word reported |
| Profanity.SpacedFirstWordReported | src/utils/profanity.ts:16-21 | `개 새 끼`, with any stripped separators between its letters and any text around it, is reported as `개새끼` |
| Nickname.SplitAtSpace | src/utils/nicknameGenerator.ts:19 | the split gives the text before the first space and the text after it; no split means there is no space |
| Nickname.SplitAtFirstSpace | src/utils/nicknameGenerator.ts:19 | a text with no space, then a space, then anything, splits back into those two parts |
| Nickname.FormatParses | src/utils/nicknameGenerator.ts:19 | parsing a formatted nickname gives back its adjective, noun and number when the words hold no space |
| Nickname.LeadingZeroRejected | src/utils/nicknameGenerator.ts:19 | a number part with a leading zero, which the template never writes, does not read back as a nickname |
| Nickname.WordListsAreHangul | src/utils/nicknameGenerator.ts:2-12 | every adjective and noun is Hangul |
| Nickname.HangulHasNoSpace | src/utils/nicknameGenerator.ts:2-12 | a Hangul word holds no space |
| Nickname.GenerateRandomNickname | src/utils/nicknameGenerator.ts:14-20 | the nickname parses back to the drawn adjective, the drawn noun and the number draw plus one; it starts with the adjective and a space and ends with 호 |
| Nickname.NumberInRange | src/utils/nicknameGenerator.ts:17 | the number in a nickname lies between 1 and 999 |
| Nickname.DistinctRollsDistinctNicknames | src/utils/nicknameGenerator.ts:17-19 | different number draws give different nicknames |
| Exam.GetRank | src/app/exam/page.tsx:58-63 | the rank is above the lowest exactly from 100, one of the two top ranks exactly from 200, and the top rank exactly from 300 |
| Exam.IsPassed | src/app/exam/page.tsx:66 | passing is reaching one of the two top ranks of the ladder |
| Exam.RankMonotone | src/app/exam/page.tsx:58-63 | a higher score never earns a lower rank |
| Exam.PassedIffTopRank | src/app/exam/page.tsx:58-66 | passing (a score of 200 or more) is exactly reaching one of the two top ranks |
| Exam.OptionScoreRange | src/app/exam/page.tsx:8-39 | every option scores at most 100 and at least its question's lowest (-50, -100, -200) |
| Exam.TotalScoreRange | src/app/exam/page.tsx:47-49 | a sum of answers lies between the sum of the lowest scores and 100 per answer, and reaches 100 per answer only when each answer scores 100 |
| Exam.FinalScoreRange | src/app/exam/page.tsx:8-49 | a finished exam scores between -350 and 300, and 300 only with the 100-point option every time |
| Exam.HusbandExam.constructor | src/app/exam/page.tsx:43-45 | the exam starts at step 0 with score 0 and no result |
| Exam.HusbandExam.HandleAnswer | src/app/exam/page.tsx:47-56 | the score grows by the option's score; before the last question the step advances, and on the last one the result shows |
| Exam.HusbandExam.Choose | src/app/exam/page.tsx:47-56 | a click on an option of the question shown adds that option's score and moves on as `handleAnswer` does |
| Exam.HusbandExam.CurrentRank | src/app/exam/page.tsx:65 | the rank shown is one of the two top ranks exactly when the current score passes, and the top rank exactly from 300 |
| Exam.SitExam | src/app/exam/page.tsx:43-66 | three answers from the start show the result with the sum of their scores, within -350 to 300, and pass exactly at the two top ranks |
| MockStore.NewPost | src/hooks/useMockStore.ts:74-82 | a new post has the draft's fields, the given id and date, and zero views, comments and likes |
| MockStore.WithoutId | src/hooks/useMockStore.ts:88 | a post is kept exactly when it was in the list and has another id |
| MockStore.WithoutIdAppend | src/hooks/useMockStore.ts:88 | deletion works piece by piece, so the kept posts stay in order |
| MockStore.WithoutAbsentId | src/hooks/useMockStore.ts:88 | deleting an id no post has leaves the list unchanged |
| MockStore.WithoutIdTwice | src/hooks/useMockStore.ts:88 | deleting the same id twice is deleting it once |
| MockStore.DeleteUndoesAdd | src/hooks/useMockStore.ts:83-89 | deleting the post just added gives the earlier list less any post with the same id |
| MockStore.Store.constructor | src/hooks/useMockStore.ts:53-54 | the first render has no posts, is not loaded, and sees the slot as an earlier visit left it |
| MockStore.Store.Load | src/hooks/useMockStore.ts:57-66 | the stored list is taken when present; otherwise the initial posts are used and stored; either way loaded and in sync |
| MockStore.Store.SavePosts | src/hooks/useMockStore.ts:69-72 | the list and the stored copy both become the new list |
| MockStore.Store.AddPost | src/hooks/useMockStore.ts:74-85 | the new post goes in front of the list, and the stored copy follows |
| MockStore.Store.DeletePost | src/hooks/useMockStore.ts:87-90 | the posts with the id are removed, and the stored copy follows |
| MockStore.AddThenDelete | src/hooks/useMockStore.ts:57-90 | after loading, adding one post and deleting it by its id, the loaded list is back less that id, and storage matches |
| Community.FilteredPosts | src/app/community/page.tsx:13-15 | the "all" tab shows the list unchanged; any other tab shows exactly the posts of that category |
| Community.FilteredAppend | src/app/community/page.tsx:15 | the tab filter keeps posts in list order |
| Community.NewPostOnTop | src/app/community/page.tsx:13-15 | a post added at the head shows first under "all" and under its own tab, and under no other tab |
| Community.DefaultBadgeIffFreeLabel | src/app/community/page.tsx:17-33 | the "warning" badge goes with the 자유 label, which covers every code but urgent, question and secret |
| Community.CodesDistinguished | src/app/community/page.tsx:17-33 | the four category codes get four different labels and four different badges |
| Community.BadgeType | src/app/community/page.tsx:17-24 | the badge is one of four classes, and the default "warning" badge goes with the default 자유 label |
| Community.KoreanCategory | src/app/community/page.tsx:26-33 | the label is one of four, and any label but 자유 names one of the codes the write form offers |
| Community.WriteHref | src/app/community/page.tsx:39 | the write button leads to the login page exactly when there is no session |
| Community.PostHref | src/app/community/page.tsx:86 | a post link leads to the login page exactly when there is no session, and otherwise into `/community/` |
| Community.LinkTargets | src/app/community/page.tsx:39-86 | without a session every link goes to the login page; with one, writing goes to the form and each post to its own page, with distinct posts on distinct pages |
| Home.DisplayedPosts | src/app/page.tsx:53-54 | the shown posts are the first min(count, limit) fetched, with a limit of 5 with a session and 4 without |
| Home.VisibleLimit | src/app/page.tsx:53 | the list shows five posts with a session and four without |
| Home.IsLocked | src/app/page.tsx:61 | only a visitor's row can be locked, and only the last of the four rows a visitor sees |
| Home.RenderRow | src/app/page.tsx:59-95 | a row is locked exactly at index 3 without a session; it shows the badge, the label, the title and the comment count (0 if missing); only open rows show views (0 if missing); links go to the post with a session and to the login page without one |
| Home.Rows | src/app/page.tsx:59-95 | one rendered row per displayed post, in order |
| Home.SignedInSeesAllOpen | src/app/page.tsx:53-61 | with a session up to five rows show and none is locked |
| Home.VisitorSeesAtMostThreeOpen | src/app/page.tsx:52-86 | without a session at most four rows show, at most three can be opened, and every link leads to the login page |
| WritePage.GuardDecisions | src/app/write/page.tsx:19-32 | loading shows the loading view with no redirect; signed out goes to the login page and renders nothing; the form shows only with a session |
| WritePage.GuardRedirect | src/app/write/page.tsx:19-24 | only a signed-out visitor is sent away, and only to the login page |
| WritePage.GuardView | src/app/write/page.tsx:26-32 | the loading view shows exactly while loading, and the form only once the status is settled and a session user is there |
| WritePage.Validate | src/app/write/page.tsx:37-40 | a submit passes exactly when both title and content hold a character that is not white space |
| WritePage.BlankTitleInvalid | src/app/write/page.tsx:37-40 | a title of white space only fails validation whatever the content |
| WritePage.BuildRecord | src/app/write/page.tsx:61-71 | the record has the form's title, content and category, the session id, the session name or 익명, and zero counters |
| WritePage.WriteForm.constructor | src/app/write/page.tsx:12-16 | the form starts empty, in category "free", not submitting |
| WritePage.WriteForm.SetTitle | src/app/write/page.tsx:111 | the title field takes the typed value |
| WritePage.WriteForm.SetContent | src/app/write/page.tsx:123 | the content field takes the typed value |
| WritePage.WriteForm.SetCategory | src/app/write/page.tsx:94 | the category field takes the chosen value |
| WritePage.WriteForm.HandleSubmit | src/app/write/page.tsx:34-81 | a blank title or content is rejected with the flag untouched; otherwise the flag is set, a write that succeeds posts the built record and goes to the board, and a failed write clears the flag |
| WritePage.SubmitScenario | src/app/write/page.tsx:12-81 | on a fresh form, a white-space title is rejected; a post carries category "free" and zero views exactly when the fields pass and the write succeeds |
| AdminUsers.ToUser | src/app/admin/users/page.tsx:38-40 | a row takes every stored field; its id is the stored `id` field when there is one and the document id otherwise |
| AdminUsers.CollectUsers | src/app/admin/users/page.tsx:37-40 | one row per document, in snapshot order |
| AdminUsers.WithRole | src/app/admin/users/page.tsx:67 | only the role changes, only on rows with the id; the length is kept |
| AdminUsers.WithStatus | src/app/admin/users/page.tsx:83 | only the status changes, only on rows with the id; the length is kept |
| AdminUsers.WithStatusTwice | src/app/admin/users/page.tsx:83 | a second status update of the same user overrides the first |
| AdminUsers.BanThenUnban | src/app/admin/users/page.tsx:165-169 | banning an active user and lifting the ban restores the table |
| AdminUsers.AdminCount | src/app/admin/users/page.tsx:108 | the admin count is at most the total; it is 0 exactly when no row is admin and the total exactly when all are |
| AdminUsers.BannedCount | src/app/admin/users/page.tsx:112 | the banned count is at most the total; it is 0 exactly when no row is banned and the total exactly when all are |
| AdminUsers.RoleUpdateKeepsBannedCount | src/app/admin/users/page.tsx:67 | a role update leaves the banned count unchanged |
| AdminUsers.StatusUpdateKeepsAdminCount | src/app/admin/users/page.tsx:83 | a status update leaves the admin count unchanged |
| AdminUsers.PromotionRaisesAdminCount | src/app/admin/users/page.tsx:67 | promoting a user to admin never lowers the admin count |
| AdminUsers.OfferedAction | src/app/admin/users/page.tsx:165-169 | an active user is offered a ban; anyone else is offered reinstatement to active |
| AdminUsers.ActionName | src/app/admin/users/page.tsx:74 | the prompt names the action 차단 exactly for a ban, and 활동 재개 otherwise |
| AdminUsers.GenderLabel | src/app/admin/users/page.tsx:144 | only "M" reads 남성; every other value reads 여성 |
| AdminUsers.StatusLabel | src/app/admin/users/page.tsx:160 | only "active" reads 정상; every other status reads 차단됨 |
| AdminUsers.RowClass | src/app/admin/users/page.tsx:136 | a row is highlighted exactly when it is banned, and a highlighted row always shows the 차단됨 badge |
| AdminUsers.ShouldFetch | src/app/admin/users/page.tsx:51-55 | the table is fetched exactly when the session has a user, whatever its role, so every admin session fetches |
| AdminUsers.OfferToggles | src/app/admin/users/page.tsx:74-169 | the prompt names 차단 exactly for an active user, matching the button; taking the offer changes the badge and offers the opposite action next |
| AdminUsers.UnknownStatusLooksBannedButIsNotCounted | src/app/admin/users/page.tsx:112-169 | a status that is neither active nor banned shows the 차단됨 badge and the 해제 button, but is not highlighted and not counted as banned |
| AdminUsers.UserManagement.constructor | src/app/admin/users/page.tsx:21-22 | the table starts empty and loading |
| AdminUsers.UserManagement.FetchUsers | src/app/admin/users/page.tsx:26-49 | loading ends either way; a snapshot replaces the table with its rows in order, and a failure keeps the table |
| AdminUsers.UserManagement.HandleRoleUpdate | src/app/admin/users/page.tsx:58-71 | the table is patched only after a confirmed and successful update; a failure shows an alert; a declined prompt does nothing |
| AdminUsers.UserManagement.HandleStatusUpdate | src/app/admin/users/page.tsx:73-87 | the same as the role update, for the status |
| AdminUsers.BanFromTable | src/app/admin/users/page.tsx:26-169 | banning a fetched active user through the row's button keeps the total and the admin count and every row's id and role; the rows with that user's id become banned and every row with another id is unchanged |
| AdminPosts.Normalize | src/app/admin/posts/page.tsx:35-43 | the id, title and category are copied; a falsy author reads 익명 and a missing or zero view count reads 0 |
| AdminPosts.CollectPosts | src/app/admin/posts/page.tsx:33-45 | one normalised row per document, in snapshot order |
| AdminPosts.WithoutPostId | src/app/admin/posts/page.tsx:68 | a row is kept exactly when it was there and has another id |
| AdminPosts.WithoutPostIdAppend | src/app/admin/posts/page.tsx:68 | the kept rows keep their order |
| AdminPosts.WithoutPostIdCount | src/app/admin/posts/page.tsx:68 | the rows kept and the rows with the id together make up the table |
| AdminPosts.CategoryNamesAgreeOnKnownCodes | src/app/admin/posts/page.tsx:80-88 | the four known codes are named as on the community board; any other code is shown unchanged, where the board shows 자유 |
| AdminPosts.GetCategoryName | src/app/admin/posts/page.tsx:80-88 | a code is shown as it is exactly when it is none of the four known codes |
| AdminPosts.PostManagement.constructor | src/app/admin/posts/page.tsx:20-21 | the table starts empty and loading |
| AdminPosts.PostManagement.FetchPosts | src/app/admin/posts/page.tsx:24-52 | loading ends either way; a snapshot replaces the table with its normalised rows in order; a failure alerts and keeps the table |
| AdminPosts.PostManagement.HandleDelete | src/app/admin/posts/page.tsx:58-73 | only a confirmed and successful delete removes the rows with the id, and it says so; a failure alerts and keeps the table; a declined prompt does nothing |
| AdminPosts.LoadThenDelete | src/app/admin/posts/page.tsx:24-68 | after deleting a fetched row, no row with its id is left, the table is shorter, and every other row remains |
| AdminLayout.Redirect | src/app/admin/layout.tsx:14-31 | the only redirect is to the admin login; there is none while loading or on the login page |
| AdminLayout.LayoutView | src/app/admin/layout.tsx:33-41 | the login page renders bare; the shell needs a settled status and a session, and carries the title of the path |
| AdminLayout.GuardDecisions | src/app/admin/layout.tsx:14-39 | no redirect while loading, where nothing renders; none on the login page, which renders bare; a signed-out visitor goes to the admin login; a session is redirected exactly when it is not an admin |
| AdminLayout.NonAdminGetsShell | src/app/admin/layout.tsx:27-41 | a non-admin session on the user table is redirected, yet the shell and the page render, and the page's fetch effect runs |
| AdminLayout.GuardedLayoutView | src/app/admin/layout.tsx:39 | the corrected render decision shows the shell only to a signed-in admin |
| AdminLayout.GuardedShellOnlyForAdmins | src/app/admin/layout.tsx:39 | under the corrected decision the shell never shows while a redirect is pending, and signed-in admins see what they saw before |
| AdminLayout.OnlyAdminsLoadUserTable | src/app/admin/users/page.tsx:51-55 | under the corrected decision the user table loads exactly for a signed-in admin off the login page |
| AdminLayout.AtMostOneActive | src/app/admin/layout.tsx:51-65 | no path makes two sidebar links active |
| AdminLayout.IsActive | src/app/admin/layout.tsx:51-65 | an active link's path is always a prefix of the current path |
| AdminLayout.PageTitle | src/app/admin/layout.tsx:85-90 | a non-empty title appears only on paths under `/admin` |
| AdminLayout.PrefixesAgree | src/app/admin/layout.tsx:54-63 | two prefixes of one path agree wherever both reach |
| AdminLayout.TitleOfActive | src/app/admin/layout.tsx:85-90 | the page title is the active section's title, and empty when no link is active |
| AdminLayout.ActiveBelowSection | src/app/admin/layout.tsx:51-65 | a section's link is active on every path below it; the dashboard's only on "/admin" |
| AdminDashboard.Dashboard.constructor | src/app/admin/page.tsx:30 | `isAdmin` starts false |
| AdminDashboard.Dashboard.CheckAdmin | src/app/admin/page.tsx:32-45 | loading does nothing; no session or a non-admin role alerts and goes home with `isAdmin` unchanged; an admin session sets `isAdmin` |
| AdminDashboard.Dashboard.RendersContent | src/app/admin/page.tsx:47 | the dashboard renders only once `isAdmin` is set; `RunChecks` states which runs of the effect set it |
| AdminDashboard.RunChecks | src/app/admin/page.tsx:32-47 | over any run of effects the content shows exactly when some settled run saw an admin; visitors are sent home only by settled non-admin runs |
| AdminDashboard.StatChangeClass | src/app/admin/page.tsx:67 | a change is "positive" exactly when it starts with '+', and "negative" otherwise |
| AdminDashboard.StatClasses | src/app/admin/page.tsx:9-14 | the first three stats show as rising and the reports stat as falling |
| PanicOverlay.Next | src/components/PanicOverlay.tsx:9-23 | Escape flips the mode, other keys keep it, a double-click clears it |
| PanicOverlay.EscapeTwice | src/components/PanicOverlay.tsx:11-12 | two Escapes restore the mode |
| PanicOverlay.EscapeParity | src/components/PanicOverlay.tsx:9-13 | with keys only, the mode has flipped exactly when Escape was pressed an odd number of times |
| PanicOverlay.OffAfterDoubleClick | src/components/PanicOverlay.tsx:23 | after a double-click the overlay stays off until Escape is pressed |
| PanicOverlay.Overlay.constructor | src/components/PanicOverlay.tsx:6 | panic mode starts off |
| PanicOverlay.Overlay.OnKeyDown | src/components/PanicOverlay.tsx:9-13 | a key press moves the mode as `Next` says |
| PanicOverlay.Overlay.OnDoubleClick | src/components/PanicOverlay.tsx:23 | a double-click turns panic mode off |
| PanicOverlay.Overlay.Renders | src/components/PanicOverlay.tsx:20 | the sheet renders only in panic mode; `Replay` states when that is |
| PanicOverlay.Replay | src/components/PanicOverlay.tsx:6-23 | replaying events on a fresh overlay shows it exactly as `Run` says |
| PanicOverlay.RowAt | src/components/PanicOverlay.tsx:66-75 | row i's header reads as i+1; its period is quarter floor(i/4)+1 of 2024; it is "Expense" exactly for even i, "High" exactly when 3 divides i, and "Completed" |
| PanicOverlay.Rows | src/components/PanicOverlay.tsx:66 | the sheet has thirty rows, in order |
| PanicOverlay.RowLabels | src/components/PanicOverlay.tsx:66-69 | the row headers are pairwise different; quarters run from Q1 to Q8 with a single digit; rows in the same four share a period |

## Left out

- Firebase is not part of this model. That covers the `users` and `posts`
  queries, `updateDoc`, `deleteDoc` and `addDoc`. A snapshot, or whether an
  operation succeeded, is a parameter, and an error message is not
  modelled.
- NextAuth is not part of this model: `signIn`, `signOut`, the provider,
  and the credential callbacks that add the role to the session. The
  session is a parameter.
- src/app/api/auth/[...nextauth]/route.ts is not part of this model. It
  holds the credential allow-list, the gender and ban checks, and the
  token shaping.
- The browser storage slot and its JSON encoding are an abstract field.
  Unparsable stored text is not modelled.
- `Date.now()`, today's date, `serverTimestamp()`, `Math.random` and
  `formatDate` are parameters or are left out. The created-at stamps are
  left out.
- The panic sheet's random amount column is left out.
- The exam's progress-bar width (floating point) and its difficulty label
  are left out, as are its final `signIn`/reload buttons.
- React scheduling is not modelled. Each handler acts on the state it is
  called in. Stale closures and concurrent admin tabs, which race with
  last-write-wins in the backend, are out.
- The loading placeholders of the home page and the admin tables are not
  modelled, nor are the pages' texts and styles.
- The login, admin login, profile, terms, reports and settings pages are
  not part of this model, nor is the navigation bar. Each is a thin
  wrapper or static content.
- JsValues.NumberOr: NaN is not modelled. Numbers are integers here.
- PanicOverlay.Replay: a double-click can only reach the overlay while it
  shows. The model lets one arrive at any time, which clears the mode
  either way.

## Findings

| source | as written | input that shows it | evidently intended | confidence | as-written member | corrected member |
|---|---|---|---|---|---|---|
| src/app/admin/layout.tsx:39 | the render gate tests only that the status is settled and that a session exists | a signed-in user whose role is not "admin" opens /admin/users: the guard redirects, but the shell and the user page render first, and the page's fetch of all users runs | render the shell and the admin page only for an admin session, as the comment "while checking auth" and the guard at lines 27-30 suggest | not executed; medium | AdminLayout.LayoutView, AdminLayout.NonAdminGetsShell | AdminLayout.GuardedLayoutView, AdminLayout.GuardedShellOnlyForAdmins |
