# BarçaVerse fan hub — a Dafny model of its session and fan features

The BarçaVerse front end is a single-page fan site for FC Barcelona
supporters. A session context holds the signed-in fan's profile. The
profile carries XP and a fan level, which is one more than the number of
whole 500-XP blocks earned. The profile is mirrored into browser storage.
Around the session sit the fan features:

- a merchandise store whose discounts are unlocked by XP;
- a notification centre fed by a simulated live interval;
- live polls that accept one vote per poll;
- a fan chat;
- a live match centre with a ticking clock and reaction counters;
- the navigation bar that gates protected sections behind sign-in;
- the sign-in / sign-up / onboarding dialog;
- a social feed;
- a fan-insights page.

Engagement actions in the features award XP through the session.

This project models those pieces in Dafny.

- The session is the class `AuthContext.Session`. Its fields are the
  signed-in user, the persisted copy and the loading flag.
- Each feature with state is a class: `MerchandiseStore.Store`,
  `NotificationCenter.Center`, `LivePolls.Polls`, `FanChat.Chat`,
  `LiveMatchData.Match`, `Navigation.Bar`, `AuthModal.Modal` and
  `SocialHub.Hub`. All but `Polls` and `Chat` hold a reference to that
  session; those two never touch it. Their handlers are methods with a
  `modifies` frame, and each contract states the new values of what the
  handler may change.
- The sign-in dialog does not keep its own open flag. `AuthModal.Modal`
  refers to the `Navigation.Bar` that shows it. The bar's
  `authModalOpen` is the dialog's `isOpen`, and the bar's
  `CloseAuthModal` is its `onClose`.
- An XP award is stated once, by the two-state predicate
  `Session.GainedXP`, and every awarding handler promises it.
- The pure parts of the site are functions with lemmas: the profile merge,
  the level rule, list updates, filters, counters and number rendering.
- `Common` holds the JavaScript behaviour the components rely on: decimal
  rendering of integers, `String.prototype.trim`, `Array.prototype.filter`,
  and the "all or one category" tab filter.

Inputs that come from outside the program are parameters of the model:

- the clock (`now`, `id`, `createdAt`);
- the random draws of the simulated intervals (`fires`, `eventFires`);
- a failing storage write (`storageFails`);
- browser notification support and the permission answer (`supported`,
  `permission`).

## Model

| member | source | states |
|---|---|---|
| AuthContext.LevelFor | src/contexts/AuthContext.tsx:135 | The level for an XP total is the unique L with (L-1)·500 ≤ xp < L·500. It is at least 1 for non-negative XP. |
| AuthContext.Merge | src/contexts/AuthContext.tsx:126 | `{ ...user, ...updates }`: every field the update names takes the update's value, and every other field keeps the user's value. |
| AuthContext.MergeNoChange | src/contexts/AuthContext.tsx:126 | An update that names no field leaves the profile unchanged. |
| AuthContext.MergeIdempotent | src/contexts/AuthContext.tsx:126 | Applying the same update twice equals applying it once. |
| AuthContext.Awarded | src/contexts/AuthContext.tsx:131-138 | After an award the XP has grown by the amount. The level is recomputed from the new XP and follows the level rule. No other field changes. |
| AuthContext.LevelNeverDecreases | src/contexts/AuthContext.tsx:131-138 | For a profile that follows the level rule, a non-negative award never lowers the level. It raises the level by at most amount/500 + 1. |
| AuthContext.AwardsCompose | src/contexts/AuthContext.tsx:131-138 | Two awards in a row equal one award of their sum. |
| AuthContext.AwardAllKeepsInvariant | src/contexts/AuthContext.tsx:131-138 | After any sequence of non-negative awards, the XP has grown by their sum and the level rule still holds. The level has not dropped and no other field has changed. |
| AuthContext.MockUser | src/contexts/AuthContext.tsx:64-79 | The login profile carries the given email and the fixed name CulerForLife2010. It has 2450 XP at level 5, which agrees with the level rule. |
| AuthContext.NewUser | src/contexts/AuthContext.tsx:95-108 | A new profile carries the given name and email, has 0 XP at level 1 and has no avatar or favourite player. |
| AuthContext.AfterAward | src/contexts/AuthContext.tsx:131-133 | With nobody signed in an award changes nothing. Otherwise it raises the XP by the amount and keeps the level rule. |
| AuthContext.Session.constructor | src/contexts/AuthContext.tsx:46-47 | Before the mount effect runs, nobody is signed in, loading is on and storage holds whatever it held. |
| AuthContext.Session.IsAuthenticated | src/contexts/AuthContext.tsx:143 | True exactly when a user is signed in. |
| AuthContext.Session.RestoreSession | src/contexts/AuthContext.tsx:49-56 | A persisted user is restored. Without one the user is kept. Loading ends. |
| AuthContext.Session.Login | src/contexts/AuthContext.tsx:58-87 | The mock profile for the email is signed in and loading ends, whatever happens to the storage write. A failed write leaves the persisted copy as it was and reports "Login failed". |
| AuthContext.Session.Signup | src/contexts/AuthContext.tsx:89-116 | A fresh level-1 profile is signed in and loading ends. A failed write leaves the persisted copy as it was and reports "Signup failed". |
| AuthContext.Session.Logout | src/contexts/AuthContext.tsx:118-121 | Nobody is signed in and the persisted copy is removed. |
| AuthContext.Session.UpdateProfile | src/contexts/AuthContext.tsx:123-129 | With nobody signed in nothing changes. Otherwise the user becomes the merge of the update and is persisted. |
| AuthContext.Session.AddXP | src/contexts/AuthContext.tsx:131-138 | The session gains the award (`GainedXP`), and afterwards the signed-in user follows the level rule. With nobody signed in nothing changes. A consistent user's level never drops. |
| Common.Decimal | src/components/LiveMatchData.tsx:59 | `n.toString()` gives at least one digit, only digits and no leading zero. |
| Common.DecimalRoundTrip | src/components/SocialHub.tsx:106 | Reading back the decimal digits of n gives n. |
| Common.DecimalInjective | src/components/SocialHub.tsx:106 | Different numbers have different decimal spellings. |
| Common.Trim | src/components/FanChat.tsx:67 | `s.trim()` is empty exactly when every character of s is ECMAScript whitespace or a line terminator. Otherwise it neither starts nor ends with one, and it is never longer than s. |
| Common.Filter | src/components/NotificationCenter.tsx:186 | `filter` never returns more elements than it is given. |
| Common.FilterMembership | src/components/FanInsights.tsx:132 | An element is kept exactly when it is in the input and the predicate accepts it. |
| Common.FilterAppend | src/components/SocialHub.tsx:117 | Filtering a concatenation concatenates the filtered parts, so the filter keeps order. |
| Common.FilterDropsRejected | src/components/FanInsights.tsx:132 | When some element is rejected, the filter returns fewer elements than it is given. |
| Common.FilterKeepsAll | src/components/FanInsights.tsx:132 | When every element is accepted, the filter returns its input. |
| Common.ByTabExact | src/components/MerchandiseStore.tsx:158-160 | The "all" tab shows every item. Any other tab shows exactly the items carrying that tag. |
| Common.ByTabKeepsOrder | src/components/SocialHub.tsx:115-117 | A tab lists its items in their original order. |
| Common.ByTabCons | src/components/SocialHub.tsx:115-117 | Away from "all", a tab keeps its first item exactly when the item carries the tag, followed by the tab of the rest. |
| MerchandiseStore.XpRequirement | src/components/MerchandiseStore.tsx:105 | The requirement is the floor of 100 × discount. |
| MerchandiseStore.XpRequirementOfWholeDiscount | src/components/MerchandiseStore.tsx:105 | A whole discount of d points costs exactly 100·d XP. |
| MerchandiseStore.CalculateDiscount | src/components/MerchandiseStore.tsx:107-116 | Without a user the full price is shown and the discount cannot be afforded. With a user it can be afforded exactly when XP ≥ the requirement. The savings are price·discount/100 when affordable and 0 otherwise. The discounted price plus the savings is always the price. |
| MerchandiseStore.JerseysTab | src/components/MerchandiseStore.tsx:30-103 | The jerseys tab of the catalogue shows the two jerseys, in catalogue order. |
| MerchandiseStore.Store.constructor | src/components/MerchandiseStore.tsx:25-28 | The store starts on the "all" tab with an empty cart, using the shared session. |
| MerchandiseStore.Store.VisibleProducts | src/components/MerchandiseStore.tsx:158-160 | The "all" tab shows the whole catalogue. Any other tab shows only catalogue products of that category, and every such product. |
| MerchandiseStore.Store.AddToCart | src/components/MerchandiseStore.tsx:118-128 | The product id is appended to the cart whether or not a fan is signed in. A signed-in fan gains 10 XP. |
| MerchandiseStore.Store.BuyWithXP | src/components/MerchandiseStore.tsx:130-156 | The purchase is refused when nobody is signed in, and refused with the required and available XP when XP falls short. Otherwise it reports price·discount/100 saved. Neither the cart nor the XP changes. |
| MerchandiseStore.Store.SelectCategory | src/components/MerchandiseStore.tsx:219-229 | The selected category tab becomes the given one. |
| NotificationCenter.WithSetting | src/components/NotificationCenter.tsx:162-164 | The named setting takes the value and the other five keep theirs. |
| NotificationCenter.MarkRead | src/components/NotificationCenter.tsx:148-154 | Notifications with the id become read. Every other notification, the length and the order are unchanged. |
| NotificationCenter.MarkAllRead | src/components/NotificationCenter.tsx:156-160 | Every notification becomes read and nothing else changes. |
| NotificationCenter.UnreadCount | src/components/NotificationCenter.tsx:186 | The count is at most the list length. It is 0 exactly when every notification is read. |
| NotificationCenter.UnreadCountIsFilterLength | src/components/NotificationCenter.tsx:186 | The count is the length of the filtered unread list. |
| NotificationCenter.MarkReadIdempotent | src/components/NotificationCenter.tsx:148-154 | Marking the same id read twice equals marking it once. |
| NotificationCenter.MarkReadNeverRaisesUnread | src/components/NotificationCenter.tsx:148-154 | Marking an id read never raises the unread count. It strictly lowers the count when an unread notification carries the id. |
| NotificationCenter.MarkAllReadClearsUnread | src/components/NotificationCenter.tsx:156-160 | After marking all read, nothing is unread. |
| NotificationCenter.LiveUpdate | src/components/NotificationCenter.tsx:91-99 | The simulated update is an unread, medium-priority match notification. |
| NotificationCenter.PrependRaisesUnread | src/components/NotificationCenter.tsx:101 | Pushing an unread notification raises the unread count by exactly one. |
| NotificationCenter.InitialNotifications | src/components/NotificationCenter.tsx:43-80 | The centre starts with four notifications, two of them unread. |
| NotificationCenter.Center.constructor | src/components/NotificationCenter.tsx:31-80 | The centre starts enabled, with the default settings and the four initial notifications, using the shared session. |
| NotificationCenter.Center.MarkAsRead | src/components/NotificationCenter.tsx:148-154 | The list becomes `MarkRead` of the old list. |
| NotificationCenter.Center.MarkAllAsRead | src/components/NotificationCenter.tsx:156-160 | The list becomes `MarkAllRead` of the old list and the unread count is 0. |
| NotificationCenter.Center.UpdateSetting | src/components/NotificationCenter.tsx:162-164 | The settings become `WithSetting` of the old settings. |
| NotificationCenter.Center.IntervalTick | src/components/NotificationCenter.tsx:89-121 | When enabled and the draw fires, an unread update goes to the front. A signed-in fan then gains 3 XP, but only where the browser has the Notification API: without it, the unguarded `Notification.permission` read throws before the award, so the session is unchanged. Otherwise neither the list nor the session changes. |
| NotificationCenter.Center.ToggleNotifications | src/components/NotificationCenter.tsx:127-146 | Switching off always works. Switching on happens exactly when the browser supports notifications and permission is granted. |
| LivePolls.RecordVote | src/components/LivePolls.tsx:51-55 | A poll that already holds a non-empty vote is left alone. Otherwise the option is recorded for the poll. Every other poll's vote is kept and only the poll's key is added. |
| LivePolls.FirstVoteIsFinal | src/components/LivePolls.tsx:51-55 | After a first non-empty vote, later votes for the same poll change nothing. |
| LivePolls.TotalVotesAppend | src/components/LivePolls.tsx:125 | The total of two runs of options is the sum of their totals. |
| LivePolls.TotalVotes | src/components/LivePolls.tsx:125 | Each option's votes are at most the poll's total. The total is 0 exactly when no option has a vote. |
| LivePolls.VoteEnabled | src/components/LivePolls.tsx:107 | An enabled button is on a live poll, and a click on it records whichever option was clicked. On a live poll, a disabled button is one whose click would change nothing. |
| LivePolls.TotalOfFour | src/components/LivePolls.tsx:125 | A four-option poll's total is the sum of its four counts. |
| LivePolls.ActivePollTotals | src/components/LivePolls.tsx:12-49 | The three polls show totals of 2940, 1838 and 4453 votes. |
| LivePolls.PollIdsBound | src/components/LivePolls.tsx:12-49 | There are no more distinct poll ids than polls. |
| LivePolls.Polls.constructor | src/components/LivePolls.tsx:10 | No vote is recorded at first. |
| LivePolls.Polls.HandleVote | src/components/LivePolls.tsx:51-55 | The votes become `RecordVote` of the old votes. |
| LivePolls.Polls.ClickVote | src/components/LivePolls.tsx:106-107 | A click records the option exactly when the button is enabled, meaning the poll is live and has no vote yet. Votes stay keyed by poll ids. The number of recorded votes never drops and never exceeds the number of polls. |
| FanChat.OwnMessage | src/components/FanChat.tsx:68-75 | The fan's message has id count+1, author "You", no likes and the raw text. |
| FanChat.Liked | src/components/FanChat.tsx:81-87 | Messages with the id gain one like. Every other message, the length and the order are unchanged. |
| FanChat.LikeReachesOneMessage | src/components/FanChat.tsx:81-87 | With ids numbered by position, a like reaches exactly the message at position id-1, and the numbering is kept. |
| FanChat.CountryFlag | src/components/FanChat.tsx:89-98 | A listed country shows its flag. The globe shows exactly for unlisted countries. |
| FanChat.Chat.constructor | src/components/FanChat.tsx:11-54 | The chat starts with the fixed messages, numbered by position, and an empty input. |
| FanChat.Chat.SendMessage | src/components/FanChat.tsx:66-79 | A message that trims to nothing is ignored. Otherwise the raw text is appended as the fan's message, the input is cleared and ids stay numbered by position. |
| FanChat.Chat.HandleLike | src/components/FanChat.tsx:81-87 | The messages become `Liked` of the old messages, and the numbering is kept. |
| FanChat.Chat.Type | src/components/FanChat.tsx:166 | The input holds the typed text. |
| LiveMatchData.Bumped | src/components/LiveMatchData.tsx:86-90 | The chosen reaction counter goes up by one and the other three keep their values. |
| LiveMatchData.MinuteLabel | src/components/LiveMatchData.tsx:59 | The label is the minute's decimal digits followed by an apostrophe. |
| LiveMatchData.MinuteLabelInjective | src/components/LiveMatchData.tsx:59 | Different minutes get different labels. |
| LiveMatchData.ShotEvent | src/components/LiveMatchData.tsx:58-63 | The pushed event is a shot labelled with the given minute. |
| LiveMatchData.EventIcon | src/components/LiveMatchData.tsx:75-84 | The five named event types get their icon. Every other type gets the football. |
| LiveMatchData.ShotShowsDefaultIcon | src/components/LiveMatchData.tsx:75-84 | A shot shows the football. The football shows exactly for goals and unlisted types. |
| LiveMatchData.Match.constructor | src/components/LiveMatchData.tsx:26-48 | The match starts live at minute 67 with a 2-1 score, four events, the listed statistics and reaction counts. |
| LiveMatchData.Match.AddReaction | src/components/LiveMatchData.tsx:86-95 | The counter is bumped and a signed-in fan gains 2 XP. Score and statistics are unchanged. |
| LiveMatchData.Match.Tick | src/components/LiveMatchData.tsx:50-73 | A live match's clock advances by one minute. When the draw fires, a shot labelled with the new minute goes to the front and a signed-in fan gains 5 XP. Otherwise events and session are unchanged. A match that is not live is untouched. |
| Navigation.OnlyFiveSectionsAreOpen | src/components/Navigation.tsx:19-34 | Exactly home, live-match, players, matches and store are unprotected. |
| Navigation.DesktopItems | src/components/Navigation.tsx:73 | The desktop bar shows the first eight sections, in order. |
| Navigation.ShowsLock | src/components/Navigation.tsx:85-87 | On a listed section the lock badge shows exactly when nobody is signed in and the section is not one of the five open ones. These are the sections whose click opens the sign-in dialog. The mobile menu's badge (lines 158-160) uses the same test. |
| Navigation.Bar.constructor | src/components/Navigation.tsx:13-17 | The bar starts with the given active section, using the shared session. The mobile menu and the sign-in dialog start closed. |
| Navigation.Bar.HandleNavigation | src/components/Navigation.tsx:36-43 | A protected section asked for anonymously opens the dialog and changes nothing else. Otherwise the section becomes active and the mobile menu closes. |
| Navigation.Bar.HandleLogout | src/components/Navigation.tsx:45-48 | The fan is signed out, the persisted copy is removed and the home section becomes active. |
| Navigation.Bar.GoHome | src/components/Navigation.tsx:56-59 | The logo makes the home section active, without the sign-in gate. |
| Navigation.Bar.OpenProfile | src/components/Navigation.tsx:103-110 | The profile button makes the profile section active, without the sign-in gate. |
| Navigation.Bar.ToggleMobileMenu | src/components/Navigation.tsx:136 | The mobile menu flips. |
| Navigation.Bar.OpenAuthModal | src/components/Navigation.tsx:124 | The sign-in dialog opens. |
| Navigation.Bar.SignInFromMobileMenu | src/components/Navigation.tsx:166-171 | The sign-in dialog opens and the mobile menu closes. |
| Navigation.Bar.CloseAuthModal | src/components/Navigation.tsx:200 | The sign-in dialog closes. |
| AuthModal.StartMode | src/components/AuthModal.tsx:18-19 | The dialog starts in the requested mode, or in login mode when none is requested. It never starts in onboarding. |
| AuthModal.Modal.constructor | src/components/AuthModal.tsx:18-31 | The dialog starts in the requested mode, or in login mode, with an empty form and not loading. It signs in through the session of the bar that shows it. |
| AuthModal.Modal.HandleSubmit | src/components/AuthModal.tsx:33-50 | In login mode the mock profile is signed in, and the bar's dialog flag is cleared on success. In signup mode a new profile is signed in, and the dialog moves to onboarding on success. A failure keeps the mode, keeps the dialog open and returns the logged error. Outside onboarding the session stops loading, and the persisted copy is the new user unless the write failed, in which case it is unchanged. In onboarding the session is untouched. The dialog's own loading flag always ends off. |
| AuthModal.Modal.ToggleMode | src/components/AuthModal.tsx:235 | Login and signup swap. |
| AuthModal.Modal.Close | src/components/AuthModal.tsx:52-55 | The dialog closes: the bar's dialog flag is cleared. |
| AuthModal.Modal.Edit | src/components/AuthModal.tsx:175 | The form holds the edited data. |
| SocialHub.TwitterTab | src/components/SocialHub.tsx:115-117 | The twitter tab shows the club's post and Pedri's, in feed order. |
| SocialHub.FormatNumber | src/components/SocialHub.tsx:103-107 | The M branch is taken exactly when n ≥ 1,000,000 and the K branch exactly when 1000 ≤ n < 1,000,000. Below 1000 the decimal digits (at most three) read back as n. The K and M values are n/1000 and n/1,000,000. |
| SocialHub.Hub.constructor | src/components/SocialHub.tsx:25-26 | The hub starts on the "all" tab, using the shared session. |
| SocialHub.Hub.VisiblePosts | src/components/SocialHub.tsx:115-117 | Out of the feed a render builds, the "all" tab shows every post. Any other tab shows only that platform's posts, and every one of them. |
| SocialHub.Hub.InteractWithPost | src/components/SocialHub.tsx:109-113 | Any action gains a signed-in fan exactly 3 XP. The posts shown and the selected tab are unchanged. |
| SocialHub.Hub.SelectPlatform | src/components/SocialHub.tsx:152-178 | The selected platform tab becomes the given one. |
| FanInsights.DisplayedLevel | src/components/FanInsights.tsx:73 | The level shown is 1 without a user or for a stored level of 0, and the stored level otherwise. |
| FanInsights.DisplayedXP | src/components/FanInsights.tsx:74 | The XP shown is 0 without a user and the stored XP otherwise. |
| FanInsights.NextLevelXP | src/components/FanInsights.tsx:75 | The next-level mark is a multiple of 500, and at least 500 from level 1 up. |
| FanInsights.JsRem500 | src/components/FanInsights.tsx:140 | JavaScript's `% 500` lies in [0, 500) for non-negative XP and in (-500, 0] for negative XP. It differs from its argument by a multiple of 500. |
| FanInsights.ShownProgress | src/components/FanInsights.tsx:140 | As written, the label's target `nextLevelXP % 500` is 0 for every user. Its first figure differs from the XP by a multiple of 500 and lies in [0, 500) for non-negative XP. |
| FanInsights.ShownProgressExample | src/components/FanInsights.tsx:140 | A level-5 fan with 2450 XP reads "450/0 XP". |
| FanInsights.Progress | src/components/FanInsights.tsx:140 | Corrected label: the same XP-in-level, out of 500. |
| FanInsights.ProgressMatchesLevelRule | src/components/FanInsights.tsx:73-76 | For a fan who follows the level rule, the XP-in-level equals xp - (level-1)·500 and lies in [0, 500). The XP still needed is exactly what reaches the next-level mark. |
| FanInsights.TotalPredictions | src/components/FanInsights.tsx:87 | The total covers every month's own count. It is 0 exactly when every month has no predictions. |
| FanInsights.CorrectPredictions | src/components/FanInsights.tsx:88 | The correct sum covers every month's own count. When every month has correct ≤ total, it never exceeds the total sum. |
| FanInsights.IncorrectPredictions | src/components/FanInsights.tsx:199 | The incorrect and correct figures add up to the total. For consistent months the incorrect figure lies between 0 and the total. |
| FanInsights.PredictionSumsStep | src/components/FanInsights.tsx:87-88 | One more month adds its own total and correct counts to the two sums. |
| FanInsights.TotalFigure | src/components/FanInsights.tsx:87 | The fixed table holds 74 predictions. |
| FanInsights.CorrectFigure | src/components/FanInsights.tsx:88 | 57 of the fixed table's predictions are correct. |
| FanInsights.PredictionFigures | src/components/FanInsights.tsx:14-21 | The table is consistent and sums to 74 predictions with 57 correct, so 17 show as incorrect. |
| FanInsights.Accuracy | src/components/FanInsights.tsx:89 | The accuracy is within half a point of the exact percentage. |
| FanInsights.AccuracyFigure | src/components/FanInsights.tsx:89 | 57 of 74 shows as 77%. |
| FanInsights.BadgeCount | src/components/FanInsights.tsx:132 | The badge count is at most the number of achievements. |
| FanInsights.AllEarnedIffFullCount | src/components/FanInsights.tsx:132 | The badge count equals the number of achievements exactly when all of them are earned. |
| FanInsights.BadgeFigure | src/components/FanInsights.tsx:38-71 | Three of the four badges are earned: all but the social one. |
| FanInsights.HeaderFor | src/components/FanInsights.tsx:100-146 | The header appears exactly for a signed-in fan. It shows the displayed level, the XP, 77% accuracy and 3 badges. Its progress label is the corrected one (`Progress`), out of 500. |

## Left out

- Browser storage is one optional slot (`Session.stored`). JSON encoding and parsing, and a corrupt stored value, are not modelled.
- Session.UpdateProfile: a failing storage write inside `updateProfile` is not modelled; the write is assumed to succeed.
- Session.Login and Session.Signup: the artificial delays (1000 ms for login, 1500 ms for signup) are not modelled, and neither is the intermediate `isLoading = true` state, which no other model member observes.
- Timers and randomness: `setInterval` runs and `Math.random()` draws are not modelled. Each interval callback is a method whose draw outcome is a boolean parameter.
- Session.AddXP: requires a non-negative amount. Every caller passes 2, 3, 5 or 10, and the source does not guard against negative amounts.
- React scheduling is not modelled. Handlers run one after another on the current state, whereas the source's closures capture a render's `user`, so several awards within one render could overwrite each other.
- Floating point is not modelled. Prices and discounts are exact reals. The one-decimal rounding of `formatNumber`'s K/M values is left out (`FormatNumber` gives the exact quotient). The accuracy percentage is computed exactly.
- The progress bar's fill, `progressToNext` (src/components/FanInsights.tsx:76), is not modelled. Only the text label beside the bar is (`ShownProgress`, `Progress`).
- FanChat.CountryFlag: keys inherited from JavaScript's object prototype (for example `"constructor"`) are not modelled; the lookup sees only the five listed countries.
- AuthContext.Merge: a `Partial<User>` key that is present but holds `undefined` is not modelled. Such a key would overwrite a field with `undefined`.
- LiveMatchData.Match.AddReaction: takes one of the four reaction kinds. A string outside them, which would create a new `NaN` counter, is not modelled.
- Toasts, icons, colours, layout and scrolling are not modelled. Components and data that the fan features only display are not modelled either: player spotlight, fixtures, predictions, digital twin, AI companion, fan of the month, profile page, guest banner, protected-feature wrapper and page shell.
- The verification banner and the hosted-backend client are not modelled. They call code outside this repository.
- AuthModal.Modal.HandleSubmit: the onboarding steps' own navigation is not modelled, nor is the unused `confirmPassword` field, which signup does not check. Closing the dialog leaves it in onboarding mode, as the source does.
- Navigation.Bar.HandleLogout: the mobile menu is not closed, as in the source.
- FanInsights.HeaderFor: the header carries the corrected progress label (`Progress`), not the "x/0 XP" text the page renders (`ShownProgress`).
- AuthModal.Modal.constructor: the guest banner's dialog, which opens in signup mode, is not modelled with its own host. A dialog started in signup mode stands for it.

## Findings

| source | as written | input that shows it | evidently intended | confidence | as-written member | corrected member |
|---|---|---|---|---|---|---|
| src/components/FanInsights.tsx:140 | The progress label prints `currentXP % 500` over `nextLevelXP % 500`. Because `nextLevelXP = fanLevel * 500`, the second figure is 0 for every level. | A level-5 fan with 2450 XP reads "450/0 XP". | "450/500 XP": the XP earned within the level out of the 500 a level spans. | high; not executed | FanInsights.ShownProgress | FanInsights.ProgressMatchesLevelRule |
