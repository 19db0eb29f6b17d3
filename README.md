# SkyPoint Social client: a verified model of its logic

SkyPoint Social's web client is a React application for a small social network. People sign up or sign in, with a password or with Google. They read a paged feed, write posts of up to 280 characters, vote posts up or down, comment in threads, follow one another and see a thank-you message with the session's length when they log out.

This project models the client-side logic behind those screens in Dafny and proves what it promises. That logic covers:
- the optimistic vote and its rollback;
- the merging of feed and profile pages;
- the string helpers;
- the form checks and the choice of error message;
- the logout message;
- the comment tree and its forms;
- restoring the session from browser storage, and the route guard;
- the declared request table of the API slice.

Each source file has its own module:

| module | file | form |
|---|---|---|
| `Types` | src/types/index.ts | the entities and requests as datatypes |
| `JsText` | (JavaScript semantics) | truthiness, `trim` and its white-space set, `split`, `parseInt`, `Math.floor(parseFloat(..))`, number-to-text |
| `PostCard` | src/components/post/PostCard.tsx | class `Card` over the post; the vote transition as a method with its if-chain |
| `Home` | src/pages/Home.tsx | the page merge as functions; class `Feed` over `page`, `allPosts`, `showCreatePost` |
| `Profile` | src/pages/Profile.tsx | class `Posts` over `page`, `allPosts`, `hasMorePosts` |
| `Helpers` | src/utils/helpers.ts | functions |
| `AuthForms` | the parts shared by RegisterForm.tsx, LoginForm.tsx, CreatePost.tsx, LogoutDialog.tsx and CommentList.tsx | the server-message chain, the Google payload, clearing an error, the fold that builds an error map |
| `RegisterForm`, `LoginForm` | src/components/auth/RegisterForm.tsx, LoginForm.tsx | per-field checks; class `Form` over `formData`, `errors`, `apiError` |
| `CreatePost` | src/components/post/CreatePost.tsx | class `Composer` over `content`, `error` |
| `LogoutDialog` | src/components/auth/LogoutDialog.tsx | the duration parse and message as functions; class `Dialog` |
| `CommentList` | src/components/post/CommentList.tsx | the recursive rendering as functions; classes `ReplyForm` and `NewCommentForm` |
| `Hooks` | src/hooks/index.ts | class `Session` over a map-backed storage and the session record |
| `ProtectedRoute` | src/components/common/ProtectedRoute.tsx | a function |
| `Api` | src/services/api.ts | class `Headers` for `prepareHeaders`; the endpoint and tag tables as functions |

Some things the code does cannot happen inside Dafny, so they come in as parameters:
- A server answer is an `Ok`/`Err` result or a success flag.
- `JSON.parse` of the stored user is a partial function.
- The hour of the day and the `REACT_APP_API_BASE_URL` variable are plain arguments.

Behaviour of the code that the model follows deliberately:
- The feed keeps duplicate ids inside one page and when a new post is prepended.
- `feedData?.posts` is truthy for an empty array, so an empty first page clears the feed.
- `hasMore` is false when no feed data has arrived.
- Two clicks on one vote button from a null vote leave `userVote` at 0, not null. The card reads 0 as no vote.
- `Home` renders `CreatePost` without a callback, so `handlePostCreated` is never called. It is modelled anyway.

## Model

| member | source | states |
|---|---|---|
| `JsText.Truthy` | src/pages/Profile.tsx:40 | JavaScript truthiness of an optional string: present and non-empty; its uses carry the `Or`, `Decide` and `ShouldHydrate` contracts |
| `JsText.Or` | src/pages/Profile.tsx:40 | JavaScript `or` on optional strings: `a` when it is truthy, `b` otherwise |
| `JsText.Trim` | src/components/post/CommentList.tsx:31 | `String.prototype.trim`: the text without leading and trailing white space; what it promises is stated by `BlankIffAllWhitespace` and `CreatePost.SentContentShape` |
| `JsText.BlankIffAllWhitespace` | src/components/post/CommentList.tsx:31 | `!text.trim()` holds exactly when every character is white space |
| `JsText.Split` | src/components/auth/LogoutDialog.tsx:40 | `split` on one character: one part more than there are separators, and no part holds the separator |
| `JsText.JoinSplit` | src/components/auth/LogoutDialog.tsx:40 | joining the parts with the separator gives back the text |
| `JsText.SplitConcat` | src/components/auth/LogoutDialog.tsx:40 | a separator-free piece followed by the separator splits off as the first part |
| `JsText.ParseInt` | src/components/auth/LogoutDialog.tsx:42 | `parseInt` on decimal text: NaN exactly when no digit follows the leading white space and sign |
| `JsText.ParseFloatFloor` | src/components/auth/LogoutDialog.tsx:44 | `Math.floor(parseFloat(..))`: NaN exactly when there is neither a whole nor a fractional digit |
| `JsText.IntToString` | src/components/auth/LogoutDialog.tsx:47 | a number in a template literal: non-empty, digits with at most a leading minus |
| `JsText.ParseIntOfIntToString` | src/components/auth/LogoutDialog.tsx:42-47 | a rendered integer parses back to itself |
| `JsText.IntToStringShape` | src/components/auth/LogoutDialog.tsx:47-51 | a rendered integer is never empty, and reads "1" exactly for 1 |
| `PostCard.Norm` | src/components/post/PostCard.tsx:60-86 | 1 and -1 read as themselves, and anything else reads as no vote |
| `PostCard.ComputeTransition` | src/components/post/PostCard.tsx:56-86 | the if-chain sets the new vote, the score change and the API vote type as the transition table gives them |
| `PostCard.Table` | src/components/post/PostCard.tsx:60-86 | the transition for each click and vote as read: the new vote, the score change and the API vote type; `ComputeTransition` equals it, and `TableShape` and `TablePreservesBase` state what it means |
| `PostCard.Optimistic` | src/components/post/PostCard.tsx:88-92 | the post right after a click: the table's new vote and the score moved by its delta; `OptimisticKeepsOtherFields` and `TablePreservesBase` state it |
| `PostCard.TableShape` | src/components/post/PostCard.tsx:60-86 | the new vote is -1, 0 or 1; a click in the direction already voted removes the vote; any other click sets the vote to the click's direction; the API type is +1 for every up click and -1 for every down click, undoing clicks included |
| `PostCard.TablePreservesBase` | src/components/post/PostCard.tsx:57-92 | every optimistic update keeps the score minus the vote unchanged, so the score change is the new vote minus the old: -1, +1, +2 for an up click from up, none, down, and +1, -1, -2 for a down click from down, none, up |
| `PostCard.OptimisticKeepsOtherFields` | src/components/post/PostCard.tsx:88-92 | only `userVote` and `score` change; every other field is copied |
| `PostCard.DoubleClickRestores` | src/components/post/PostCard.tsx:60-92 | from no vote or a vote in the clicked direction, two clicks on the same button give back the score and the vote as the card reads it; the post itself comes back only from a set vote, because a null vote returns as 0 |
| `PostCard.NullVoteReturnsAsZero` | src/components/post/PostCard.tsx:60-92 | from a null vote, two clicks on one button leave the vote at 0 rather than null, so the post differs from the start |
| `PostCard.SwitchThenUndo` | src/components/post/PostCard.tsx:60-92 | from the opposite vote, two clicks end with no vote and the score one step from the start in the clicked direction, not at the start |
| `PostCard.ApplyClicksScore` | src/components/post/PostCard.tsx:57-92 | over any run of confirmed clicks, the score is the start score plus the deltas of the table, the score minus the vote never changes, and the final vote is the last transition's |
| `PostCard.HighlightAfterClick` | src/components/post/PostCard.tsx:114-115 | after a click, the clicked button is highlighted exactly when it was not before, and the other button is not highlighted |
| `PostCard.HasUpvoted` | src/components/post/PostCard.tsx:114 | the up button is highlighted exactly for a vote of 1 |
| `PostCard.HasDownvoted` | src/components/post/PostCard.tsx:115 | the down button is highlighted exactly for a vote of -1 |
| `PostCard.Card.constructor` | src/components/post/PostCard.tsx:37 | the card starts with the post it was given |
| `PostCard.Card.SyncFromProps` | src/components/post/PostCard.tsx:39-41 | a new post from the parent replaces the local copy |
| `PostCard.Card.HandleVote` | src/components/post/PostCard.tsx:49-103 | without a user, only a redirect to /login and the post unchanged; otherwise the optimistic post, the request with the post id and the vote type, and on failure the snapshot restored exactly |
| `Home.Unseen` | src/pages/Home.tsx:63-64 | the filtered page is no longer than the page, and none of its posts has an id already present |
| `Home.UnseenIsFilter` | src/pages/Home.tsx:63-64 | the filter keeps exactly the posts with new ids, in server order |
| `Home.AppendUnseen` | src/pages/Home.tsx:62-66 | the merge of a later page: the old list followed by the page's posts with new ids; the `AppendUnseen` lemmas below state its properties |
| `Home.AppendUnseenPrefix` | src/pages/Home.tsx:62-66 | the old list is a prefix of the merge, and the tail is the filtered page |
| `Home.AppendUnseenCovers` | src/pages/Home.tsx:62-66 | every id of the incoming page is present after the merge |
| `Home.UnseenAllSeen` | src/pages/Home.tsx:63-64 | filtering against a set holding all of the page's ids leaves nothing |
| `Home.AppendUnseenIdempotent` | src/pages/Home.tsx:62-66 | merging the same later page twice gives the list of one merge |
| `Home.UnseenDistinct` | src/pages/Home.tsx:64 | filtering keeps distinct ids distinct |
| `Home.AppendUnseenDistinct` | src/pages/Home.tsx:62-66 | when the old list and the page each have distinct ids, so does the merge |
| `Home.DuplicatesInPageKept` | src/pages/Home.tsx:63-65 | two posts with one id inside a single page both stay |
| `Home.HasMore` | src/pages/Home.tsx:138 | the server's `hasMore` once feed data has arrived, and false before |
| `Home.LoadMoreVisible` | src/pages/Home.tsx:375 | the button shows when more pages exist, nothing is fetching and the list is non-empty |
| `Home.EndMessageVisible` | src/pages/Home.tsx:405 | the end message shows when no more pages exist and the list is non-empty, fetching or not |
| `Home.FooterExclusive` | src/pages/Home.tsx:375-405 | the Load More button and the end message are never shown together; with posts and no fetch running, one of them is shown; with no posts, neither is |
| `Home.Greeting` | src/pages/Home.tsx:139-144 | the greeting is one of the three texts |
| `Home.GreetingPeriods` | src/pages/Home.tsx:139-144 | morning before 12, afternoon from 12 to before 18, evening from 18, each as an if-and-only-if |
| `Home.Feed.constructor` | src/pages/Home.tsx:34-36 | page 1, no posts, the composer closed |
| `Home.Feed.OnFeedData` | src/pages/Home.tsx:56-69 | no posts field: nothing changes; page 1: the list becomes the server page; a later page: the old list plus the unseen posts |
| `Home.Feed.LoadMore` | src/pages/Home.tsx:81-83 | the page goes up by exactly one |
| `Home.Feed.OpenCreatePost` | src/pages/Home.tsx:172 | the composer opens and nothing else changes |
| `Home.Feed.PostCreated` | src/pages/Home.tsx:89-93 | the new post is put first without removing duplicates, the list grows by one, and the composer closes |
| `Profile.TargetUserId` | src/pages/Profile.tsx:40 | the route parameter when it is truthy, the current user's id otherwise |
| `Profile.IsOwnProfile` | src/pages/Profile.tsx:41 | the target id equals the signed-in user's id; `OwnProfileCases` gives its cases |
| `Profile.OwnProfileCases` | src/pages/Profile.tsx:40-41 | without a route parameter the profile is one's own, even with nobody signed in; with one, exactly when it equals the current id |
| `Profile.LoadMoreVisible` | src/pages/Profile.tsx:264 | the button shows when more posts exist, the list is non-empty and nothing is fetching |
| `Profile.EndMessageVisible` | src/pages/Profile.tsx:289 | the end message shows when no more posts exist, the list is non-empty and nothing is fetching |
| `Profile.FooterExclusive` | src/pages/Profile.tsx:264-289 | the button and the end message never show together; a non-empty list not being fetched shows exactly one; during a fetch or for an empty list neither shows |
| `Profile.EndMessageDiffersFromHome` | src/pages/Profile.tsx:289 | during a fetch the profile hides its end message while the home feed keeps it |
| `Profile.PostCountDisplay` | src/pages/Profile.tsx:168 | `postCount` when defined; "..." exactly when it is undefined and the first page is loading; the list's length otherwise |
| `Profile.Posts.constructor` | src/pages/Profile.tsx:36-38 | page 1, no posts, more posts expected |
| `Profile.Posts.OnPostsData` | src/pages/Profile.tsx:72-92 | a non-empty first page replaces the list, and a later one appends the unseen posts in order; a page shorter than 10 ends `hasMorePosts`; an empty page ends it and leaves the list; no data changes nothing; the flag never turns back to true here |
| `Profile.Posts.ResetForTarget` | src/pages/Profile.tsx:94-98 | a new profile target gives page 1, no posts and more posts expected |
| `Profile.Posts.LoadMore` | src/pages/Profile.tsx:109-113 | the page goes up by one only when no fetch is running |
| `Helpers.TruncateText` | src/utils/helpers.ts:22-25 | a text no longer than the limit comes back unchanged |
| `Helpers.TruncateTextLong` | src/utils/helpers.ts:22-25 | a longer text becomes its first `maxLength` characters and "...", of length `maxLength` + 3 |
| `Helpers.TruncateTextIsPrefix` | src/utils/helpers.ts:22-25 | the result is the text itself, or a prefix of the text followed by "..." |
| `Helpers.IsValidEmail` | src/utils/helpers.ts:27-30 | the language of `/^[^\s@]+@[^\s@]+\.[^\s@]+$/`: local part, '@', host, '.', tail, each a non-empty run without white space or '@'; `IsValidEmailIff` relates it to the stated shape |
| `Helpers.ValidEmailHasShape` | src/utils/helpers.ts:27-30 | a valid address has no white space, exactly one '@' with something before it, and after it a '.' with characters on both sides |
| `Helpers.ShapeIsValidEmail` | src/utils/helpers.ts:27-30 | every string of that shape passes the check |
| `Helpers.IsValidEmailIff` | src/utils/helpers.ts:27-30 | both directions together |
| `Helpers.EmailExamples` | src/utils/helpers.ts:27-30 | "a@b.co" passes and "not-an-email" fails |
| `Helpers.ToUpperAscii` | src/utils/helpers.ts:34 | `toUpperCase` on one character, for ASCII letters |
| `Helpers.GenerateAvatarUrl` | src/utils/helpers.ts:32-36 | '?' for an empty name; otherwise the upper-cased first character, in the fixed URL template |
| `Helpers.AvatarUrlIgnoresRest` | src/utils/helpers.ts:32-36 | two names with the same first character give the same URL |
| `Helpers.AvatarUrlInitial` | src/utils/helpers.ts:32-36 | the URL is the template with one character in the name slot |
| `Helpers.GetUserDisplayName` | src/utils/helpers.ts:38-46 | '' for no user; "first last" when both names are non-empty; otherwise the username, else the email, else '' |
| `Helpers.DisplayNameEmptyIff` | src/utils/helpers.ts:38-46 | the display name is empty exactly when there is no user or every fallback is empty |
| `Helpers.GetUserHandle` | src/utils/helpers.ts:48-52 | '' for no user, and the username when it is non-empty |
| `Helpers.HandleFromEmail` | src/utils/helpers.ts:51 | without a username, the handle is the email's text before its first '@', or the whole email when it has no '@', and holds no '@' |
| `Helpers.HandleEmptyIff` | src/utils/helpers.ts:51 | without a username, the handle is empty exactly when the email is empty or starts with '@' |
| `AuthForms.Candidates` | src/components/auth/RegisterForm.tsx:84 | five places in order: `data.message`, `data.error`, the description of the first entry of `data.errors` when there is one, `data.title`, then `error.message`; without `data` the first four are absent |
| `AuthForms.FirstTruthy` | src/components/auth/RegisterForm.tsx:84 | JavaScript `or` down the candidates and then the fallback; the lemmas below give its value |
| `AuthForms.NoneTruthyGivesFallback` | src/components/auth/RegisterForm.tsx:84 | with no non-empty candidate the chain yields the fallback |
| `AuthForms.FirstTruthyAt` | src/components/auth/RegisterForm.tsx:84 | the chain stops at the first non-empty candidate and yields it |
| `AuthForms.FirstTruthyIsFirst` | src/components/auth/RegisterForm.tsx:84 | the chain yields the first non-empty candidate, or the fallback when there is none |
| `AuthForms.ServerErrorMessage` | src/components/auth/RegisterForm.tsx:84 | the chain over the five places with the form's fallback; `ServerErrorMessageChain` states it position by position |
| `AuthForms.ServerErrorMessageChain` | src/components/auth/RegisterForm.tsx:84 | the message is `data.message`, `data.error`, `data.errors[0].description`, `data.title`, then `message`, taking the first that is non-empty, then the fallback; a non-empty fallback gives a non-empty message |
| `AuthForms.FirstTruthyNonEmpty` | src/components/auth/LoginForm.tsx:84 | a non-empty fallback makes the chosen message non-empty |
| `AuthForms.DataMessageOr` | src/components/post/CreatePost.tsx:43 | `error.data?.message` when non-empty, else the fallback |
| `AuthForms.GoogleSignIn` | src/components/auth/RegisterForm.tsx:90-101 | a missing or empty ID token is an error with its message; otherwise the payload carries the token with provider "Google" |
| `AuthForms.ClearError` | src/components/auth/RegisterForm.tsx:41-43 | the edited field's message becomes '' if it had one; every other message and the set of fields stay |
| `AuthForms.Collect` | src/components/auth/RegisterForm.tsx:49-60 | the error map holds exactly the checked fields that have a message, with that message |
| `AuthForms.OnAuthSuccess` | src/components/auth/RegisterForm.tsx:76-82 | success stores the returned user and token and goes to '/' |
| `RegisterForm.WithValue` | src/components/auth/RegisterForm.tsx:40 | the edited field takes the new value and every other field keeps its value |
| `RegisterForm.FieldError` | src/components/auth/RegisterForm.tsx:51-62 | the one message a field gets: "required" first, then the length, format or equality message; `NoErrorsIffAcceptable` relates it to the field rules |
| `RegisterForm.ValidateForm` | src/components/auth/RegisterForm.tsx:49-62 | a field is in the error map exactly when its checks give a message, and then with that message, so each field has at most one message |
| `RegisterForm.AcceptableHasNoErrors` | src/components/auth/RegisterForm.tsx:51-62 | a form meeting every field rule gets no message for any field |
| `RegisterForm.NoErrorsIsAcceptable` | src/components/auth/RegisterForm.tsx:51-62 | a form with no message for any of the six fields meets every field rule |
| `RegisterForm.NoErrorsIffAcceptable` | src/components/auth/RegisterForm.tsx:51-62 | no field has a message exactly when each field meets its rule: username non-blank and at least 3 long, names non-blank, email non-empty and valid, password at least 6 long, confirmation equal to it |
| `RegisterForm.PaddedShortUsernamePasses` | src/components/auth/RegisterForm.tsx:51-52 | " ab" passes, since only the blank check trims |
| `RegisterForm.RequiredBeforeLength` | src/components/auth/RegisterForm.tsx:51-52 | a blank short username gets "required", not the length message |
| `RegisterForm.Form.constructor` | src/components/auth/RegisterForm.tsx:27-36 | empty fields, no errors, no server message |
| `RegisterForm.Form.HandleInputChange` | src/components/auth/RegisterForm.tsx:38-47 | the value changes, that field's message and the server message clear, and other messages stay |
| `RegisterForm.Form.HandleSubmit` | src/components/auth/RegisterForm.tsx:65-87 | the errors are those of `validateForm`; a request is sent exactly when the form is acceptable, with the fields as typed; success gives the credentials, and failure the chained message |
| `RegisterForm.Form.HandleGoogleResponse` | src/components/auth/RegisterForm.tsx:89-116 | no token: the message and no request; otherwise the request, then success or the chained message |
| `RegisterForm.Form.HandleGoogleSignInError` | src/components/auth/RegisterForm.tsx:118-121 | the fixed message is shown |
| `LoginForm.WithValue` | src/components/auth/LoginForm.tsx:47 | only the edited field changes |
| `LoginForm.FieldError` | src/components/auth/LoginForm.tsx:59-66 | the email is required and then must be valid; the password is only required; `ValidIff` relates it to the rules |
| `LoginForm.ValidateForm` | src/components/auth/LoginForm.tsx:57-69 | a field is in the error map exactly when it has a message: email required, then valid; password required |
| `LoginForm.ValidIff` | src/components/auth/LoginForm.tsx:57-69 | the map is empty exactly when the email is valid and the password is non-empty |
| `LoginForm.ShortPasswordAccepted` | src/components/auth/LoginForm.tsx:64-66 | a one-character password has no message, since there is no length rule |
| `LoginForm.SignedIn` | src/components/auth/LoginForm.tsx:39 | a truthy token and a user together; `Render` and `EmptyTokenShowsForm` state its effect |
| `LoginForm.Render` | src/components/auth/LoginForm.tsx:38-129 | with both a token and a user, a spinner and a redirect to '/', and the form otherwise |
| `LoginForm.EmptyTokenShowsForm` | src/components/auth/LoginForm.tsx:39 | an empty token does not count as signed in |
| `LoginForm.Form.constructor` | src/components/auth/LoginForm.tsx:30-35 | empty fields, no errors, no server message |
| `LoginForm.Form.HandleInputChange` | src/components/auth/LoginForm.tsx:45-55 | the value changes, and that field's message and the server message clear |
| `LoginForm.Form.HandleSubmit` | src/components/auth/LoginForm.tsx:71-87 | an invalid form sends nothing; a valid one sends the email and password, then success or the chained message with the sign-in fallback |
| `LoginForm.Form.HandleGoogleResponse` | src/components/auth/LoginForm.tsx:89-116 | no token: the message and no request; otherwise the request, then success or the chained message |
| `LoginForm.Form.HandleGoogleSignInError` | src/components/auth/LoginForm.tsx:118-121 | the fixed message is shown |
| `CreatePost.ValidateContent` | src/components/post/CreatePost.tsx:25-36 | blank content is refused first and content over 280 characters next, each with its message; otherwise the trimmed text is sent |
| `CreatePost.SentContentShape` | src/components/post/CreatePost.tsx:25-36 | what is sent is non-empty, at most 280 long, and has no white space at either end |
| `CreatePost.LengthCountsPadding` | src/components/post/CreatePost.tsx:30-33 | the length check counts the untrimmed text, so 281 characters ending in a space are refused though the trimmed text would fit |
| `CreatePost.SubmitDisabled` | src/components/post/CreatePost.tsx:108 | the button is disabled for blank text, text over 280 characters or a pending request |
| `CreatePost.EnabledIffAccepted` | src/components/post/CreatePost.tsx:108 | the button is enabled exactly when nothing is loading and the content passes the checks |
| `CreatePost.Shown` | src/components/post/CreatePost.tsx:54 | the composer renders only for a signed-in user |
| `CreatePost.ButtonState` | src/components/post/CreatePost.tsx:54-108 | a visitor gets no button; a signed-in user gets an enabled one exactly when nothing is loading and the content would be accepted |
| `CreatePost.Composer.constructor` | src/components/post/CreatePost.tsx:19-20 | empty content and no message |
| `CreatePost.Composer.HandleSubmit` | src/components/post/CreatePost.tsx:22-45 | a refused text shows the check's message and sends nothing; otherwise the trimmed text is sent; success clears content and message, and failure shows the server message or the fallback |
| `CreatePost.Composer.HandleInputChange` | src/components/post/CreatePost.tsx:47-52 | the content is replaced and the message cleared |
| `LogoutDialog.ParseDuration` | src/components/auth/LogoutDialog.tsx:37-53 | the default exactly when the duration is missing, empty or has fewer than three ':'-separated parts; a chosen hours or minutes value is positive |
| `LogoutDialog.Choose` | src/components/auth/LogoutDialog.tsx:46-52 | positive hours pick the hours message, else positive minutes the minutes message, else the seconds message; `ParseDuration` states which values a choice carries |
| `LogoutDialog.SessionMessage` | src/components/auth/LogoutDialog.tsx:37-52 | the default text when unparsed, otherwise "Thanks for spending ... with us!" with the units below; the lemmas that follow state its plural rules for every input |
| `LogoutDialog.ParseOfThree` | src/components/auth/LogoutDialog.tsx:40-44 | a text of three colon-free parts is split into exactly those parts, read as hours, minutes and seconds, with hours or minutes that do not parse taken as 0 |
| `LogoutDialog.ParseOfRendered` | src/components/auth/LogoutDialog.tsx:40-52 | a duration written from hours and minutes is read back to those numbers, and they select the message |
| `LogoutDialog.UnparsableCountsAsZero` | src/components/auth/LogoutDialog.tsx:42-43 | hours and minutes that do not parse count as 0, so the seconds message is chosen |
| `LogoutDialog.ParsedIsNotDefault` | src/components/auth/LogoutDialog.tsx:41-52 | any duration with three parts gives a message with numbers, never the default |
| `LogoutDialog.MinuteSingularIff` | src/components/auth/LogoutDialog.tsx:49 | "1 minute" stands alone exactly when the minutes are 1 |
| `LogoutDialog.SecondSingularIff` | src/components/auth/LogoutDialog.tsx:51 | the seconds message reads "1 second" exactly when the seconds are 1 |
| `LogoutDialog.HoursMessageShape` | src/components/auth/LogoutDialog.tsx:47 | the hours message is the hours with "hours" above one and "hour" otherwise, " and ", then the minutes with "minute" exactly for 1 and "minutes" otherwise |
| `LogoutDialog.HourSingularIff` | src/components/auth/LogoutDialog.tsx:47 | for positive hours, the hour word that `HoursMessageShape` places after the hours is " hour" exactly for one hour and " hours" above one |
| `LogoutDialog.MinuteInHoursSingularIff` | src/components/auth/LogoutDialog.tsx:47 | the minute word that `HoursMessageShape` places after the minutes is " minute" exactly for one minute and " minutes" otherwise, zero included |
| `LogoutDialog.ZeroSeconds` | src/components/auth/LogoutDialog.tsx:51 | zero seconds gives "0 seconds" |
| `LogoutDialog.OneHourZeroMinutes` | src/components/auth/LogoutDialog.tsx:47 | one hour is singular while zero minutes is plural |
| `LogoutDialog.Dialog.constructor` | src/components/auth/LogoutDialog.tsx:28-29 | no message and no summary |
| `LogoutDialog.Dialog.Title` | src/components/auth/LogoutDialog.tsx:75 | the title is "Session Summary" exactly when a summary is shown, and "Confirm Logout" otherwise |
| `LogoutDialog.Dialog.ActionsShown` | src/components/auth/LogoutDialog.tsx:98 | the buttons are shown exactly when the title is "Confirm Logout", that is, before a summary is set |
| `LogoutDialog.Dialog.HandleLogout` | src/components/auth/LogoutDialog.tsx:31-98 | success shows the message for the returned duration, so the title becomes "Session Summary" and the buttons are hidden; failure shows the server message or the fallback and sets no summary |
| `CommentList.RenderItem` | src/components/post/CommentList.tsx:122-126 | a comment's block: its item, then the blocks of its replies one level deeper; the lemmas below state its properties |
| `CommentList.RenderList` | src/components/post/CommentList.tsx:124-126 | the blocks of a list of comments, one after another |
| `CommentList.PreOrder` | src/components/post/CommentList.tsx:122-128 | each comment comes first in its block, followed by its replies one level deeper; absent or empty replies give no nested block |
| `CommentList.ItemFacts` | src/components/post/CommentList.tsx:122-126 | a tree renders as many items as it has comments, each with the post id passed down and at least the depth of its block |
| `CommentList.ListFacts` | src/components/post/CommentList.tsx:122-128 | the same for a list of comments |
| `CommentList.ItemComments` | src/components/post/CommentList.tsx:122-126 | the comments the rendered items show are exactly the tree in pre-order: each comment once, before its replies |
| `CommentList.ListComments` | src/components/post/CommentList.tsx:122-128 | the same for a list of comments, trees in their order |
| `CommentList.TopLevelInOrder` | src/components/post/CommentList.tsx:122-128 | the comments rendered at a block's own depth are exactly the block's comments, in order |
| `CommentList.View` | src/components/post/CommentList.tsx:176-239 | no data or an empty list shows the placeholder; otherwise the items are the rendered list, so `ItemComments`, `ListComments` and `PreOrder` apply, and the top level shows the comments in order |
| `CommentList.Submission` | src/components/post/CommentList.tsx:28-45 | blank text or no user sends nothing; otherwise the trimmed, non-empty text goes with the post id and the given parent |
| `CommentList.SubmitDisabled` | src/components/post/CommentList.tsx:113 | both buttons are disabled for blank text or a pending request |
| `CommentList.EnabledIffSubmits` | src/components/post/CommentList.tsx:113-217 | with a user, a button is enabled exactly when nothing is pending and the text would be sent; without a user nothing is sent |
| `CommentList.ReplyForm.constructor` | src/components/post/CommentList.tsx:24-25 | the reply form starts closed and empty |
| `CommentList.ReplyForm.Toggle` | src/components/post/CommentList.tsx:79 | the Reply button opens or closes the form |
| `CommentList.ReplyForm.Edit` | src/components/post/CommentList.tsx:94 | the text is replaced |
| `CommentList.ReplyForm.Cancel` | src/components/post/CommentList.tsx:102-105 | the form closes and its text clears |
| `CommentList.ReplyForm.Submit` | src/components/post/CommentList.tsx:28-45 | the reply carries the trimmed text, the post id and the replied-to comment's id; success clears and closes the form; failure or refusal leaves it as it was |
| `CommentList.NewCommentForm.constructor` | src/components/post/CommentList.tsx:137-138 | empty text and no message |
| `CommentList.NewCommentForm.Edit` | src/components/post/CommentList.tsx:196-199 | the text is replaced and the message cleared |
| `CommentList.NewCommentForm.Submit` | src/components/post/CommentList.tsx:148-166 | a top-level comment has no parent; success clears text and message; failure keeps the text and shows the server message or the fallback |
| `Hooks.GetItem` | src/hooks/index.ts:17-18 | a stored key gives its value, and a missing one gives null |
| `Hooks.AuthenticatedNeverHydrates` | src/hooks/index.ts:20 | while someone is signed in, the stored session is never restored, whatever the storage holds |
| `Hooks.ShouldHydrate` | src/hooks/index.ts:20 | a truthy stored token and user while nobody is signed in; `PurgeStopsHydration` and `AuthenticatedNeverHydrates` state when it fails |
| `Hooks.Purge` | src/hooks/index.ts:30-32 | exactly 'token', 'user' and 'sessionId' are removed; every other key keeps its value |
| `Hooks.PurgeStopsHydration` | src/hooks/index.ts:20-32 | after a purge the restore's condition no longer holds |
| `Hooks.PurgeKeepsOthers` | src/hooks/index.ts:30-32 | a key other than the three survives with its value |
| `Hooks.UseAuth` | src/hooks/index.ts:11-44 | the returned fields are the session store's, and `logout` dispatches the logout action |
| `Hooks.Session.constructor` | src/hooks/index.ts:9-13 | the storage and the session record as given |
| `Hooks.Session.Hydrate` | src/hooks/index.ts:16-35 | without both non-empty keys, or when signed in, nothing happens; a user that parses is restored with the stored token and the storage stays; one that does not is purged, and the session is left alone |
| `ProtectedRoute.Decide` | src/components/common/ProtectedRoute.tsx:12-33 | loading gives the spinner whatever else holds; the redirect to /login exactly when not authenticated and no token; the page exactly when authenticated or holding a token |
| `ProtectedRoute.Guard` | src/components/common/ProtectedRoute.tsx:12-33 | the guard read from the session store's loading flag, authenticated flag and token; `GuardReadsThreeFields` states that nothing else matters |
| `ProtectedRoute.GuardReadsThreeFields` | src/components/common/ProtectedRoute.tsx:12 | stores that agree on the loading flag, the authenticated flag and the token's truthiness are guarded alike |
| `ProtectedRoute.TokenAloneRenders` | src/components/common/ProtectedRoute.tsx:29-33 | a token alone, without the authenticated flag, renders the page |
| `ProtectedRoute.EmptyTokenRedirects` | src/components/common/ProtectedRoute.tsx:29-31 | an empty token counts as none |
| `Api.BaseUrl` | src/services/api.ts:20 | the environment's address when non-empty, else 'http://localhost:5159/api' |
| `Api.Authorization` | src/services/api.ts:27-29 | a header is set exactly when the token is non-empty, and it is "Bearer " followed by the token |
| `Api.PrepareHeaders` | src/services/api.ts:26-32 | the same headers object comes back; with a token its `authorization` entry is set, and otherwise it is unchanged |
| `Api.OrNumber` | src/services/api.ts:70-71 | JavaScript's `or` on a number: an absent value and 0 both fall back |
| `Api.DefaultNumber` | src/services/api.ts:143 | a destructuring default: only an absent value falls back |
| `Api.MutationRequest` | src/services/api.ts:38-135 | every mutation is a POST; `createComment` goes to /comment/P with its content, post id and parent; only logout has no body |
| `Api.QueryRequest` | src/services/api.ts:66-159 | every query is a GET with no body; the feed falls back to page 1 and page size 20 for absent or zero values, and a user's posts send defaults only for absent values |
| `Api.ZeroPageDiffers` | src/services/api.ts:69-146 | a page and page size of 0 become 1 and 20 for the feed but are sent as 0 for a user's posts |
| `Api.Invalidates` | src/services/api.ts:44-134 | the `invalidatesTags` of each mutation; `AuthMutationsInvalidateOnlyAuth` and `RefetchesExactly` state what they reach |
| `Api.Provides` | src/services/api.ts:74-159 | the `providesTags` of each query; `NoQueryProvidesAuth` and `RefetchesExactly` state what they offer |
| `Api.Matches` | src/services/api.ts:89-108 | the assumed matching rule: a bare type matches every tag of that type, a tag with an id only itself |
| `Api.NoQueryProvidesAuth` | src/services/api.ts:66-159 | no query provides an 'Auth' tag |
| `Api.AuthMutationsInvalidateOnlyAuth` | src/services/api.ts:38-135 | sign-in, sign-up, Google sign-in and logout are exactly the mutations that invalidate only 'Auth' |
| `Api.RefetchesExactly` | src/services/api.ts:74-158 | under the stated matching rule, createPost refetches the feed and users' posts; createComment(P) also refetches the comments of P; vote refetches the feed, users' posts and all comments; follow refetches users and follow status; the session mutations refetch nothing |
| `Api.CommentRefetchesOwnPost` | src/services/api.ts:87-108 | a new comment refetches the comments of its own post and of no other |

## Left out

- JSX layout, MUI styling, animations, the scroll listener and the scroll-to-top button: presentation only.
- `Header.tsx`, `Layout.tsx` and `App.tsx`: menu toggles and the router table.
- src/store/authSlice.ts is not part of this model. The `setCredentials` and `logout` actions are values the hook and forms hand back, not reducers that run.
- The HTTP transport and the caching library. `Api.Matches` is an assumed rule for matching tags, not a model of the library. Refetch scheduling and the joining of base address and path are not modelled. The library may store a provided tag with an empty id as a tag without an id. If so, `{Comment, ""}` would not reach `getComments("")`. `Api.Matches` does not model this case.
- Async interleavings: only one request at a time is modelled. Overlapping vote clicks, superseded feed responses and the two-second timer before logout (src/components/auth/LogoutDialog.tsx:60-64) are out.
- The storage writes on sign-in and sign-up success are not modelled: `localStorage` 'token' and 'sessionId', and the `sessionStorage` start time from `Date.now()`. The session hook reads 'token' back at start-up, and `Hooks.Purge` removes 'sessionId'. `Hooks.Session` takes the storage as a constructor argument, so the model does not connect a sign-in to a later restore. Only `sessionStartTime` is read by nothing in the source.
- `AuthForms.OnAuthSuccess`: a falsy `unwrap()` result is not modelled. The source then skips `setCredentials` but still goes to '/'. The declared response type rules that case out, so in the model a success always carries a user and a token.
- `formatTimeAgo` and `formatShortTime` (src/utils/helpers.ts:3-20): they only reformat date-library output.
- The Google sign-in widget itself: its result is the `credential` parameter.
- `parseInt`/`parseFloat` are modelled on an optional sign and digits. Exponents, hexadecimal, "Infinity" and floating-point rounding are not modelled. NaN appears only as an absent seconds value, rendered "NaN".
- Strings are sequences of characters, not UTF-16 code units. JavaScript `.length` counts code units, and the model counts Unicode scalar values. This affects `CreatePost.ValidateContent`, `CreatePost.SubmitDisabled` and `RegisterForm.FieldError`: the 280 limit of src/components/post/CreatePost.tsx:30 and :108, and the 3 and 6 minimums of src/components/auth/RegisterForm.tsx:52 and :58. For example, 141 emoji are 282 code units and are refused by the source, but they are accepted by the model. `toUpperCase` is modelled for ASCII letters only.
- The JavaScript regular expression of `isValidEmail` is replaced by the structural predicate `Helpers.IsValidEmail`, proved equal to the stated shape.
- `JSON.parse` in the session hook is a parameter. A stored value that parses to something other than a user object is not modelled.
- `RegisterForm.ValidateForm`: the source assigns the error object field by field. The model folds the per-field checks over the same order, so it shows the resulting map, not the sequence of assignments.
- `LoginForm.ValidateForm`: the same, for two fields.
- `Api.OrNumber`: a NaN page falls back in the source too, but NaN is not modelled.
- Loading and error placeholders of the pages (skeletons, "Failed to load feed", "Failed to load comments"): fixed texts for the query states, not modelled.
- The follow button of the post card and the profile: it only sends the request, and its result is refetched through the tag tables.
