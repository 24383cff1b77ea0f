# A social-network front end, as pure state transitions

This project models the decision logic of a React social-network client
whose every remote operation goes through a hosted backend (database, auth
and file storage). Each event handler and `setState` updater is lifted into
a pure step function: the old state, plus whatever the backend answered or
the error it reported, gives the new state and the toast that pops up, if
any. Backend answers are inputs (`Reply`, `Result`), as are the random ids,
`Date.now()`, the e-mail validator and the public-URL builder.

The modules follow the source files:

- `Js`: the JavaScript idioms the handlers lean on. These are the `x || d`
  fallback, `trim`, ASCII `toLowerCase`, `includes`, `filter`, `slice` and
  out-of-range indexing.
- Story viewers: `StoriesPage` (grouping and the cross-group cursor) and
  `StoriesCarousel` (flat list with `seen` flags).
- `CallInterface`: the call status machine, duration timer and `mm:ss`
  formatting.
- `Database`: the relations the services update. These are the like table,
  group memberships and notification rows. It also holds the page windows
  of the list queries.
- `DataContext`: the client cache of posts, like counters, comments and
  notifications. `Notifications` holds the read-marking it shares with
  `NotificationCenter`.
- `NotificationUtils`: notification sentences and toast messages.
- Per-page handlers: `GroupsDirectory`, `GroupDetailPage`, `ChatInterface`,
  `FriendSuggestions`, `PostCard`, `ProfilePage`.
- Settings and search: `PrivacySettings`, `SettingsPage`, `SearchPage`,
  `MarketplacePage`, `PagesDirectoryPage`.
- Auth pages: `ResetPasswordPage`, `LoginPage`, `AuthContext`.
- `Storage`: upload paths and storage arguments.

## Model

| member | source | states |
|---|---|---|
| Js.Lookup | src/contexts/DataContext.tsx:150-153 | `m[k] \|\| d` on a map: the stored value for a present key, the default for an absent one |
| Js.At | src/services/database.ts:114 | indexing outside the sequence yields `undefined`; inside it yields the element |
| Js.TrimStart | src/components/messaging/ChatInterface.tsx:82 | leading white space (the ECMAScript white-space and line-terminator characters, every Unicode space separator included) is dropped and nothing else: the result is a suffix that starts with a non-space, and everything cut was white space |
| Js.TrimEnd | src/components/messaging/ChatInterface.tsx:82 | trailing white space, over the same character set, is dropped and nothing else: the result is a prefix that ends with a non-space |
| Js.BlankIffAllSpace | src/components/messaging/ChatInterface.tsx:82 | `!s.trim()` holds exactly when every character is one `trim` removes, so a draft of U+3000 alone is blank |
| Js.Lower | src/components/groups/GroupsDirectory.tsx:168-174 | case folding keeps the length and folds each character on its own |
| Js.ContainsIffOccurs | src/components/groups/GroupsDirectory.tsx:168-174 | `includes` finds the substring exactly when it occurs at some position |
| Js.Filter | src/components/friends/FriendSuggestions.tsx:83 | `filter` keeps only elements of the input that pass the test and is never longer |
| Js.FilterAppend | src/components/friends/FriendSuggestions.tsx:83 | filtering preserves order: filtering a concatenation concatenates the filtered parts |
| Js.FilterMembership | src/components/friends/FriendSuggestions.tsx:83 | an element survives exactly when it was in the input and passes the test |
| Js.Count | src/components/notifications/NotificationCenter.tsx:125 | a filtered count is at most the length |
| Js.CountIsFilterLength | src/components/notifications/NotificationCenter.tsx:125 | the count of passing elements is the length of the filtered list |
| Js.FilterEmptyIff | src/components/notifications/NotificationCenter.tsx:171-173 | the filter is empty exactly when no element passes |
| Js.FilterAll | src/components/friends/FriendSuggestions.tsx:83 | a filter that accepts everything is the identity |
| Js.FindFirst | src/components/groups/GroupsDirectory.tsx:143 | `find` gives the first element of the list that passes the test (every earlier element fails it), or `undefined` exactly when none does |
| Js.MapWhere | src/components/groups/GroupsDirectory.tsx:144-146 | the update applies in place to the elements that pass the test; the others and the length stay |
| Js.Take | src/pages/SearchPage.tsx:195 | `slice(0, n)` is the first `min(n, length)` elements, the whole list when it is short |
| StoriesPage.GroupByUser | src/pages/StoriesPage.tsx:52-59 | every story's author has a group and no group is empty |
| StoriesPage.GroupIsFilter | src/pages/StoriesPage.tsx:52-59 | an author's group is exactly that author's stories in input order; an author without stories has no group |
| StoriesPage.StoryInOwnGroup | src/pages/StoriesPage.tsx:52-59 | every story is in its own author's group |
| StoriesPage.UserOrder | src/pages/StoriesPage.tsx:61-72 | one entry per author, no author twice, and exactly the authors that have groups |
| StoriesPage.GroupSizesSum | src/pages/StoriesPage.tsx:52-59 | the group sizes add up to the number of stories |
| StoriesPage.EveryIffAllSeen | src/pages/StoriesPage.tsx:61-72 | `every(s => s.seen)` holds exactly when each story of the group is seen |
| StoriesPage.Entry | src/pages/StoriesPage.tsx:61-72 | a `userList` entry has the group's size as its story count and `allSeen` iff every story is seen |
| StoriesPage.UserList | src/pages/StoriesPage.tsx:61-72 | one entry per author in the given order, each built from that author's group |
| StoriesPage.UserListOfStories | src/pages/StoriesPage.tsx:61-72 | the order built from the stories covers every group once, one entry per author, sizes summing to the story count |
| StoriesPage.FindIndex | src/pages/StoriesPage.tsx:161-170 | `findIndex` gives the first position holding the author, or -1 exactly when the author is absent |
| StoriesPage.ViewUserStories | src/pages/StoriesPage.tsx:140-146 | viewing selects the author at index 0 with the group's first story active and progress 0 |
| StoriesPage.CloseStory | src/pages/StoriesPage.tsx:148-155 | closing clears the active story and the selected author; the counter stays |
| StoriesPage.Next | src/pages/StoriesPage.tsx:158 | with no author selected, next is a no-op |
| StoriesPage.Previous | src/pages/StoriesPage.tsx:185 | with no author selected, previous is a no-op |
| StoriesPage.NextCases | src/pages/StoriesPage.tsx:157-182 | inside a group next moves one story on; at a group's end it opens the next author's first story; after the last author it closes |
| StoriesPage.PreviousCases | src/pages/StoriesPage.tsx:184-208 | inside a group previous moves one back; at index 0 it opens the previous author's last story; at the very first story it only resets progress |
| StoriesPage.ViewEstablishesValid | src/pages/StoriesPage.tsx:140-146 | the cursor invariant (selected author has a group, index inside it, active story is that entry) holds initially and after viewing |
| StoriesPage.StepsPreserveValid | src/pages/StoriesPage.tsx:148-208 | next, previous, the tick and close all keep the cursor invariant |
| StoriesPage.TickProgress | src/pages/StoriesPage.tsx:120-130 | a tick adds one below 100; reaching 100 advances like next and resets the counter to 0 |
| StoriesPage.Tick | src/pages/StoriesPage.tsx:112-130 | the timer does nothing with no story shown, keeps the counter within 0..99, and keeps the same story shown until the counter fills |
| StoriesPage.SubmitStory | src/pages/StoriesPage.tsx:210-248 | on success the "Story created" toast appears and the dialog resets; any array answered, an empty one included, puts one entry in front of both lists: the first row, unseen and with the user's profile, or only the profile and the unseen flag when the array is empty; a null answer leaves the lists; an error raises the red "Error creating story" toast with its message and keeps the page; no user is a no-op |
| StoriesPage.PrependLeadsGroup | src/pages/StoriesPage.tsx:223-235 | a prepended story leads its author's group; every other group is unchanged |
| StoriesCarousel.FindIndex | src/components/stories/StoriesCarousel.tsx:119-127 | the first position with the id, or -1 exactly when no story has it |
| StoriesCarousel.MarkSeen | src/components/stories/StoriesCarousel.tsx:81-83 | `seen` is raised on the stories with the id only; length, order and all other fields stay |
| StoriesCarousel.View | src/components/stories/StoriesCarousel.tsx:75-85 | viewing a known id opens it with progress 0 and marks it seen; an unknown id changes nothing |
| StoriesCarousel.Close | src/components/stories/StoriesCarousel.tsx:87-93 | closing clears the active story and keeps the list |
| StoriesCarousel.TickAtEnd | src/components/stories/StoriesCarousel.tsx:108-139 | at 100 the next story in list order is viewed if there is one, otherwise the viewer closes with progress 0 |
| StoriesCarousel.StepKeepsShape | src/components/stories/StoriesCarousel.tsx:75-139 | every event keeps length and order, never clears `seen`, and keeps progress in 0..99 |
| StoriesCarousel.RunKeepsSeen | src/components/stories/StoriesCarousel.tsx:75-139 | over any run of events `seen` is monotone and progress stays in 0..99 |
| StoriesCarousel.Mount | src/components/stories/StoriesCarousel.tsx:69-71 | the strip mounts with the given stories, none open and the counter at 0, which is the starting state the run lemmas need |
| StoriesCarousel.Tick | src/components/stories/StoriesCarousel.tsx:108-139 | with no story open the timer does nothing; every tick only raises `seen` flags, keeps the counter within 0..99, and below 100 keeps the same story open |
| CallInterface.Open | src/components/calling/CallInterface.tsx:36-40 | the call starts ringing iff incoming, ongoing otherwise, at 0 s, unmuted, camera and speaker on |
| CallInterface.Step | src/components/calling/CallInterface.tsx:47-135 | an event keeps the direction and never lowers the duration; the status changes only out of ringing or ongoing, to ongoing exactly by accepting and to ended exactly by declining or hanging up; the microphone flag changes only by the mute button before the call ended |
| CallInterface.Transitions | src/components/calling/CallInterface.tsx:93-106 | accept moves ringing to ongoing; decline and hang-up move to ended |
| CallInterface.EndedAbsorbs | src/components/calling/CallInterface.tsx:173-186 | no event changes an ended call |
| CallInterface.DurationTicks | src/components/calling/CallInterface.tsx:47-52 | the duration grows by one per second only while ongoing and no event resets it |
| CallInterface.TogglesInvolutive | src/components/calling/CallInterface.tsx:108-135 | each toggle flips its own flag only, and two presses restore the call |
| CallInterface.RunDuration | src/components/calling/CallInterface.tsx:47-52 | over any run the duration is the start plus the seconds that ticked while ongoing |
| CallInterface.Decimal | src/components/calling/CallInterface.tsx:87-91 | `toString` of a natural is a non-empty digit string, one digit below 10, two below 100 |
| CallInterface.ValueOfDecimal | src/components/calling/CallInterface.tsx:87-91 | reading a number's decimal text gives the number back |
| CallInterface.Pad2 | src/components/calling/CallInterface.tsx:87-91 | `padStart(2, '0')` gives at least two characters and never shortens |
| CallInterface.PaddedValue | src/components/calling/CallInterface.tsx:87-91 | zero-padding keeps a number's digits and value |
| CallInterface.FormatTime | src/components/calling/CallInterface.tsx:87-91 | the display is at least five characters, all digits except a colon third from the end |
| CallInterface.FormatTimeParts | src/components/calling/CallInterface.tsx:87-91 | the display is minutes, a colon and two seconds digits worth 0..59 |
| CallInterface.FormatTimeRoundTrip | src/components/calling/CallInterface.tsx:87-91 | below 6000 s the display has five characters and reads back as 60·mm + ss |
| Database.ToggleLike | src/services/database.ts:75-106 | an existing like is removed and reported `unliked`, a missing one inserted and reported `liked`; no other pair changes; a write error changes nothing |
| Database.ToggleTwiceRestores | src/services/database.ts:75-106 | two successful toggles of a pair restore the like table |
| Database.ToggleMovesCount | src/services/database.ts:75-106 | a successful toggle moves the post's like count by exactly one, down on unlike and up on like |
| Database.LikeCount | src/services/database.ts:108-115 | `getLikes` is the first row's count, and 0 when no row or no count came back |
| Database.PageWindow | src/services/database.ts:27 | `range(startFrom, startFrom + limit - 1)` covers exactly `limit` positions |
| Database.Rows | src/services/database.ts:19-30 | the rows returned are the contiguous run of the table inside the window, ending at the window or the table |
| Database.WindowsTile | src/services/database.ts:27 | consecutive pages are adjacent and do not overlap |
| Database.PagesConcatenate | src/services/database.ts:19-44 | two consecutive pages read the same rows as one page twice as long |
| Database.QueryShapes | src/services/database.ts:19-326 | for any arguments: posts, user posts, groups and notifications are newest first and comments oldest first; posts and groups are paged by the window of their arguments, notifications capped at their limit, comments unbounded; each per-owner list filters on its owner column; the default first page covers 0..9 |
| Database.GroupInsert | src/services/database.ts:222-240 | privacy defaults to public and category to General |
| Database.CreateGroup | src/services/database.ts:222-254 | the owner gets an `owner` membership only when the insert returned the group and the member insert succeeded; an empty answer throws |
| Database.JoinGroup | src/services/database.ts:266-278 | a successful join adds the (group, user) row with role `member` |
| Database.LeaveGroup | src/services/database.ts:280-288 | a successful leave removes exactly the pair's rows, whatever their role |
| Database.JoinThenLeave | src/services/database.ts:266-288 | for a user not already in the group, joining then leaving restores the memberships |
| Database.MarkNotificationAsRead | src/services/database.ts:328-336 | only the row with the id is marked read; no other field changes |
| Database.MarkAllNotificationsAsRead | src/services/database.ts:338-347 | only the user's unread rows are updated |
| Database.MarkAllTouchesOnlyUser | src/services/database.ts:338-347 | afterwards the user has no unread row and every other user's rows are unchanged |
| DataContext.LoadPosts | src/contexts/DataContext.tsx:38-68 | page 0 replaces the posts, later pages append; an error only raises a toast; no user changes nothing; other caches stay |
| DataContext.LoadUserPosts | src/contexts/DataContext.tsx:71-97 | the profile list is replaced by the page; an error only raises a toast |
| DataContext.SetLikeCount | src/contexts/DataContext.tsx:53-57 | one like-count load sets that post's counter and nothing else |
| DataContext.InfiniteScroll | src/contexts/DataContext.tsx:38-68 | loading two consecutive pages shows the same posts as loading one page twice as long |
| DataContext.CreatePost | src/contexts/DataContext.tsx:100-139 | any array the insert answers, an empty one included, puts one entry in front: its first row with the user as author, or only the author fields when it is empty; the rest stays in order; the handler returns `data?.[0] \|\| null`; an error toasts and changes nothing but the loading flag; no user is a no-op |
| DataContext.Bump | src/contexts/DataContext.tsx:150-153 | `liked` adds one (a missing counter reads 0); `unliked` subtracts one from the counter, where a missing or zero counter reads 1 and so stays 0; other counters stay |
| DataContext.ToggleLikePost | src/contexts/DataContext.tsx:142-161 | only the post's counter moves, and only when the server answered without error |
| DataContext.BumpKeepsNonNegative | src/contexts/DataContext.tsx:150-153 | a toggle keeps every counter non-negative |
| DataContext.LikesStayNonNegative | src/contexts/DataContext.tsx:142-161 | under any sequence of toggles and count loads, counters that start non-negative stay so |
| DataContext.ToggleReconciles | src/contexts/DataContext.tsx:142-161 | when the cache agrees with the like table, a successful toggle keeps it agreeing |
| DataContext.AddComment | src/contexts/DataContext.tsx:164-198 | any array the insert answers, an empty one included, appends one entry to its post's list, creating the list if absent: the first row with the user as author, or only the author fields when it is empty; every other list stays; the handler returns `data?.[0] \|\| null` |
| DataContext.FirstRow | src/contexts/DataContext.tsx:128 | `data?.[0] \|\| null` is the first row when the array is non-empty and null otherwise |
| DataContext.LoadComments | src/contexts/DataContext.tsx:201-221 | only the post's list is replaced; other posts' lists and the rest of the state stay |
| DataContext.LoadThenAdd | src/contexts/DataContext.tsx:164-221 | adding after loading gives the loaded comments followed by the new one |
| DataContext.LoadNotifications | src/contexts/DataContext.tsx:224-242 | the notification list is replaced by the rows, or emptied when none came back |
| DataContext.MarkNotificationRead | src/contexts/DataContext.tsx:245-267 | only the matching notification is marked read; length and order stay; an error only raises a toast |
| DataContext.MarkAllNotificationsRead | src/contexts/DataContext.tsx:270-288 | every notification ends read unless the update failed |
| DataContext.MarkNotificationReadIdempotent | src/contexts/DataContext.tsx:253-259 | marking the same notification twice is marking it once |
| DataContext.UseData | src/contexts/DataContext.tsx:319-325 | outside a provider the hook throws its message; inside, it is the context value |
| Notifications.Seen | src/components/notifications/NotificationCenter.tsx:115-119 | marking read changes only the read flag |
| Notifications.MarkRead | src/components/notifications/NotificationCenter.tsx:115-119 | the notifications with the id are marked read, every other one is unchanged, and length and order stay |
| Notifications.MarkAllRead | src/components/notifications/NotificationCenter.tsx:121-123 | every notification is marked read, in place |
| Notifications.MarkReadIdempotent | src/components/notifications/NotificationCenter.tsx:115-119 | marking twice is marking once |
| Notifications.MarkReadUnknown | src/components/notifications/NotificationCenter.tsx:115-119 | marking an id no notification carries changes nothing |
| Notifications.MarkReadCount | src/components/notifications/NotificationCenter.tsx:115-125 | the unread count drops by exactly the number of unread notifications with the id |
| Notifications.UnreadWithIdUnique | src/components/notifications/NotificationCenter.tsx:125 | with a unique id, that notification alone decides how many unread ones carry it |
| Notifications.UnreadWithIdNone | src/components/notifications/NotificationCenter.tsx:125 | no notification carrying the id means none unread with it |
| Notifications.MarkUnreadLowersCount | src/components/notifications/NotificationCenter.tsx:115-125 | marking an unread notification with a unique id lowers the badge by one |
| Notifications.MarkAllLeavesNoneUnread | src/components/notifications/NotificationCenter.tsx:121-125 | after mark-all the badge is 0 |
| Notifications.UnreadCountZeroIff | src/components/notifications/NotificationCenter.tsx:125 | the badge is 0 exactly when every notification is read |
| Notifications.UnreadCount | src/components/notifications/NotificationCenter.tsx:125 | the badge is the length of the list of unread notifications, never more than the list |
| NotificationCenter.MarkAsRead | src/components/notifications/NotificationCenter.tsx:115-119 | only the matching entries become read; ids, types, payloads and positions stay |
| NotificationCenter.MarkAllAsRead | src/components/notifications/NotificationCenter.tsx:121-123 | every entry becomes read and the badge shows nothing |
| NotificationCenter.Click | src/components/notifications/NotificationCenter.tsx:41 | clicking marks an entry only when it is unread |
| NotificationCenter.ClickLowersBadge | src/components/notifications/NotificationCenter.tsx:41-125 | clicking an unread entry with a unique id lowers the badge by one |
| NotificationCenter.TabsAreTypeFilters | src/components/notifications/NotificationCenter.tsx:171-191 | the mentions and follows tabs hold exactly the entries of their type, in list order |
| NotificationCenter.EmptyTabs | src/components/notifications/NotificationCenter.tsx:171-191 | a tab is empty exactly when no entry has its type |
| NotificationUtils.ActorName | src/utils/notificationUtils.ts:102 | the actor's full name, or `Someone` when the actor or the name is missing or empty |
| NotificationUtils.PhrasesDistinct | src/utils/notificationUtils.ts:104-124 | the ten types have ten different phrases |
| NotificationUtils.FormatTextShape | src/utils/notificationUtils.ts:101-127 | every sentence starts with the actor's name, and for one actor two sentences agree exactly when the types do |
| NotificationUtils.ToastAgreesWithText | src/utils/notificationUtils.ts:70-98 | the toast repeats the list text for like, comment, follow, friend request and message, and says "You have a new notification from" the actor otherwise |
| NotificationUtils.FormatText | src/utils/notificationUtils.ts:101-127 | the list text starts with the actor's name and continues past it |
| NotificationUtils.ToastMessage | src/utils/notificationUtils.ts:70-98 | for like, comment, follow, friend request and message the toast is the list text; for the other types it is "You have a new notification from" the actor |
| GroupsDirectory.Join | src/components/groups/GroupsDirectory.tsx:142-153 | a known group becomes joined with one more member and a toast; an unknown id changes nothing |
| GroupsDirectory.Leave | src/components/groups/GroupsDirectory.tsx:155-166 | a known group becomes not joined with one member fewer and a toast; an unknown id changes nothing |
| GroupsDirectory.JoinThenLeave | src/components/groups/GroupsDirectory.tsx:142-166 | joining then leaving restores every member count, and the whole list for a group that was not joined |
| GroupsDirectory.PressCard | src/components/groups/GroupsDirectory.tsx:52-58 | a joined card's button leaves, any other card's button joins |
| GroupsDirectory.PressTwiceRestores | src/components/groups/GroupsDirectory.tsx:52-58 | pressing a card's button twice restores the list when its id is unique |
| GroupsDirectory.FilteredIsSearch | src/components/groups/GroupsDirectory.tsx:168-174 | an empty query shows all; otherwise a group shows iff its name, description or category contains the query ignoring case, in order |
| GroupsDirectory.Filtered | src/components/groups/GroupsDirectory.tsx:168-174 | the shown groups come from the list, are never more than it, and for a non-empty query all match it |
| GroupsDirectory.MyGroupsAreJoined | src/components/groups/GroupsDirectory.tsx:176 | "my groups" is exactly the joined groups |
| GroupsDirectory.MyGroups | src/components/groups/GroupsDirectory.tsx:176 | "my groups" come from the list, are all joined, and are never more than it |
| GroupsDirectory.Suggested | src/components/groups/GroupsDirectory.tsx:254 | at most three unjoined groups of the search result, the first ones in order |
| GroupDetailPage.Load | src/pages/GroupDetailPage.tsx:23-59 | no id or user changes nothing; otherwise loading ends, and each answer is stored only if its query and those before it returned: the group, then the membership, then the posts (only for a member or a public group) |
| GroupDetailPage.ThrowMidLoad | src/pages/GroupDetailPage.tsx:31-56 | a throw after the group arrived leaves it stored with loading off; a membership throw keeps the old membership and posts, a posts throw keeps the old posts, and a members throw loses nothing modelled |
| GroupDetailPage.ShouldFetchPosts | src/pages/GroupDetailPage.tsx:40 | posts of a public group are always fetched, and those of a private group exactly for a member |
| GroupDetailPage.JoinLeave | src/pages/GroupDetailPage.tsx:63-77 | a member becomes a non-member and anyone else a `member`; no id or user, or a throw, changes nothing |
| GroupDetailPage.JoinLeaveFlips | src/pages/GroupDetailPage.tsx:63-77 | each press flips membership and two presses restore it |
| GroupDetailPage.CreatePost | src/pages/GroupDetailPage.tsx:79-94 | posting needs an id, a user, non-blank content and membership; any array answered, an empty one included, puts `data[0]` in front (`undefined` for an empty array) and clears the draft; a null answer or a throw keeps posts and draft; the posting flag ends false |
| GroupDetailPage.CreatePostRule | src/pages/GroupDetailPage.tsx:79-94 | for any answered array, a member's `data[0]` leads the list over the old posts and the draft empties; a blank draft or a non-member posts nothing |
| GroupDetailPage.CanPost | src/pages/GroupDetailPage.tsx:80 | posting is allowed exactly with an id, a user, membership and a draft holding some character `trim` does not remove |
| GroupDetailPage.PostDisabled | src/pages/GroupDetailPage.tsx:189 | the post button is disabled exactly while posting or when every character of the draft is white space |
| GroupDetailPage.PanelOf | src/pages/GroupDetailPage.tsx:175-202 | members see the composer; non-members of a private group see the join prompt |
| GroupDetailPage.PrivateGroupJourney | src/pages/GroupDetailPage.tsx:23-202 | a non-member of a private group fetches no posts and sees the join prompt, which joining turns into the composer |
| ChatInterface.Send | src/components/messaging/ChatInterface.tsx:81-100 | a blank draft does nothing; otherwise one untrimmed message from me is appended, the box is cleared and only the open contact shows it, `Just now`, with no unread |
| ChatInterface.SendEnabled | src/components/messaging/ChatInterface.tsx:191 | the send button is enabled exactly when the draft holds a character `trim` does not remove |
| ChatInterface.Click | src/components/messaging/ChatInterface.tsx:102-110 | the clicked contact becomes open with no unread; nothing else changes |
| ChatInterface.RunSettles | src/components/messaging/ChatInterface.tsx:81-110 | over any run the contact list keeps length, order and names, badges only drop to 0, and messages are only appended |
| FriendSuggestions.RemoveSpec | src/components/friends/FriendSuggestions.tsx:83 | removal drops exactly the suggestions with the id, keeps order, changes nothing for an unknown id, and is idempotent |
| FriendSuggestions.AddFriend | src/components/friends/FriendSuggestions.tsx:81-91 | the suggestion is removed and the request-sent toast appears only when it was present |
| FriendSuggestions.Ignore | src/components/friends/FriendSuggestions.tsx:93-95 | a suggestion stays exactly when it was in the list with another id; the result is the same removal, in the same order, as adding a friend |
| FriendSuggestions.AddTwiceNoToast | src/components/friends/FriendSuggestions.tsx:81-91 | a second add of the same id raises no toast and changes nothing |
| AuthContext.OnAuthEvent | src/contexts/AuthContext.tsx:51-65 | a session with a user replaces the user, any other event clears it, and loading ends |
| AuthContext.CheckUser | src/contexts/AuthContext.tsx:39-48 | the mount check stores the current user, keeps the old one if the lookup throws, and ends loading |
| AuthContext.Bracket | src/contexts/AuthContext.tsx:74-135 | a bracketed call is loading while pending and not after, returns the gateway result unchanged, and toasts the error or the success text |
| AuthContext.SignIn | src/contexts/AuthContext.tsx:74-93 | sign-in is bracketed, leaves the user to the listener, and titles its toast by outcome |
| AuthContext.SignUp | src/contexts/AuthContext.tsx:95-114 | sign-up is bracketed and titles its toast by outcome |
| AuthContext.SignOut | src/contexts/AuthContext.tsx:116-135 | sign-out is bracketed and titles its toast by outcome |
| AuthContext.CallToast | src/contexts/AuthContext.tsx:137-201 | an error always gives a red toast with its message; social sign-in gives no success toast, the reset calls do |
| AuthContext.UpdateProfile | src/contexts/AuthContext.tsx:203-224 | without a user the answer is `User not authenticated` and the gateway is not called; otherwise the user's own row is updated |
| AuthContext.UseAuth | src/contexts/AuthContext.tsx:242-248 | outside a provider the hook throws its message; inside, it is the context value |
| AuthContext.ListenSettles | src/contexts/AuthContext.tsx:51-65 | after any non-empty sequence of auth events loading is over and the user is the last event's |
| PrivacySettings.DefaultsAre | src/components/settings/PrivacySettings.tsx:26-38 | defaults: e-mail and phone visible to friends, the other levels public, all switches on |
| PrivacySettings.Switch | src/components/settings/PrivacySettings.tsx:103-108 | a switch negates its own flag only |
| PrivacySettings.Select | src/components/settings/PrivacySettings.tsx:110-115 | a select sets its own level only |
| PrivacySettings.SwitchTwice | src/components/settings/PrivacySettings.tsx:103-108 | switching the same flag twice restores the record |
| PrivacySettings.SelectIdempotent | src/components/settings/PrivacySettings.tsx:110-115 | selecting the same level twice is selecting it once |
| PrivacySettings.Values | src/components/settings/PrivacySettings.tsx:79-83 | the record serialises to one value per key |
| PrivacySettings.ParseMembers | src/components/settings/PrivacySettings.tsx:60-62 | a parse reads one value per expected key |
| PrivacySettings.Serialize | src/components/settings/PrivacySettings.tsx:82 | `JSON.stringify` of the record is one object text, opening with `{` and closing with `}` |
| PrivacySettings.Parse | src/components/settings/PrivacySettings.tsx:62 | only the layout `JSON.stringify` writes is accepted: a text that parses is exactly the serialisation of the record it gives (with ParseSerialize, parsing and serialising are inverse) |
| PrivacySettings.ParseSerialize | src/components/settings/PrivacySettings.tsx:60-83 | every record parses back from its serialised text |
| PrivacySettings.Load | src/components/settings/PrivacySettings.tsx:51-74 | stored settings replace the record; a missing column keeps it; a failed query or bad text keeps it and toasts |
| PrivacySettings.Save | src/components/settings/PrivacySettings.tsx:76-101 | the whole record is written serialised; the toast is red exactly on error |
| PrivacySettings.SaveThenLoad | src/components/settings/PrivacySettings.tsx:51-101 | a saved record loads back equal into any card |
| SettingsPage.Loaded | src/pages/SettingsPage.tsx:50-84 | account fields come from metadata and e-mail with `''` when absent; without a profile row nothing else changes |
| SettingsPage.LoadedDefaults | src/pages/SettingsPage.tsx:66-83 | profile texts default to `''`, the privacy selects to public/everyone/public, and every switch is on unless stored exactly false |
| SettingsPage.Load | src/pages/SettingsPage.tsx:50-98 | loading fills the form, or toasts and keeps it when the fetch throws; no user changes nothing |
| SettingsPage.Cancel | src/pages/SettingsPage.tsx:322-333 | cancel touches only the seven account fields |
| SettingsPage.CancelRestoresLoaded | src/pages/SettingsPage.tsx:50-98 | after a load that found a profile row, cancel restores the seven account fields whatever was edited; without a row the four profile texts become empty; privacy and notification edits stay |
| SettingsPage.AccountUpdate | src/pages/SettingsPage.tsx:105-113 | the account payload has exactly the seven profile fields and never the e-mail |
| SettingsPage.PrivacyUpdate | src/pages/SettingsPage.tsx:139-146 | the privacy payload has exactly the six privacy fields from the form |
| SettingsPage.NotificationUpdate | src/pages/SettingsPage.tsx:172-182 | two top-level flags plus `notification_settings` with exactly five keys |
| SettingsPage.Save | src/pages/SettingsPage.tsx:100-201 | each card writes its own payload; the toast is red exactly on error and then carries the error text |
| SettingsPage.LoadThenSavePrivacy | src/pages/SettingsPage.tsx:66-146 | loading then saving privacy without edits writes back the stored values with the defaults applied |
| SearchPage.Tag | src/pages/SearchPage.tsx:37-46 | tagging sets every row's type and nothing else |
| SearchPage.Results | src/pages/SearchPage.tsx:37-50 | never more results than fetched rows; the users tab tags every fetched user `user`; the posts tab keeps only posts containing the query, tagged `post`; other tabs keep the rows as fetched |
| SearchPage.PerformSearch | src/pages/SearchPage.tsx:28-59 | a blank query does nothing; otherwise loading ends and the results are replaced unless the query threw |
| SearchPage.PostsTabMembers | src/pages/SearchPage.tsx:41-46 | the posts tab holds a row iff it is a post whose content contains the query ignoring case, tagged `post` |
| SearchPage.PostsTabOrder | src/pages/SearchPage.tsx:41-46 | post results keep the fetched order, and a missing answer gives no results |
| SearchPage.UsersTabTags | src/pages/SearchPage.tsx:37-50 | user results are the fetched users tagged `user`; a missing answer becomes `[]` |
| SearchPage.HandleSearch | src/pages/SearchPage.tsx:61-67 | submitting sets the URL parameter and searches only for a non-blank query |
| SearchPage.OnParam | src/pages/SearchPage.tsx:20-26 | a non-empty `q` parameter becomes the query and is searched; otherwise nothing happens |
| SearchPage.Summary | src/pages/SearchPage.tsx:181-209 | the summary shows the first four users and first three posts, in order |
| SearchPage.SummaryEntries | src/pages/SearchPage.tsx:181-209 | the summary holds only results of the right type, and is empty exactly when there are none |
| MarketplacePage.ToApply | src/pages/MarketplacePage.tsx:38-50 | status is always `active`; a category only when neither empty nor `All`; a price bound only when typed |
| MarketplacePage.CategoryChange | src/pages/MarketplacePage.tsx:74-80 | `All` stores an empty category, any other choice itself; the active button follows |
| MarketplacePage.CategoryButtonsFilter | src/pages/MarketplacePage.tsx:11-80 | the `All` button applies no category filter; every other button filters by itself |
| MarketplacePage.Search | src/pages/MarketplacePage.tsx:53-62 | the search succeeds iff no product throws, and keeps a subset |
| MarketplacePage.SearchKeepsMatches | src/pages/MarketplacePage.tsx:53-62 | a product is kept iff its title or description contains the query ignoring case, in order |
| MarketplacePage.SearchThrows | src/pages/MarketplacePage.tsx:53-62 | the search throws exactly when some product misses on title and has no description |
| MarketplacePage.Load | src/pages/MarketplacePage.tsx:34-72 | an empty query keeps every fetched product; otherwise the matches; a failure keeps the old list |
| PagesDirectoryPage.CategoryParam | src/pages/PagesDirectoryPage.tsx:33 | `All` means no category filter; any other value is passed through |
| PagesDirectoryPage.ButtonsCategory | src/pages/PagesDirectoryPage.tsx:12-33 | only the first button, `All`, drops the category filter |
| PagesDirectoryPage.SearchSpec | src/pages/PagesDirectoryPage.tsx:36-45 | an empty query keeps all; otherwise a page is kept iff its name or present description contains the query ignoring case, in order |
| PagesDirectoryPage.Search | src/pages/PagesDirectoryPage.tsx:38-44 | the kept pages come from the fetched ones, are never more, and for a non-empty query all match it |
| PagesDirectoryPage.Load | src/pages/PagesDirectoryPage.tsx:29-55 | fetched pages are filtered by the query; a failure keeps the old list |
| ResetPasswordPage.PasswordIssues | src/pages/ResetPasswordPage.tsx:24-30 | a short password and a mismatch are each reported iff they hold |
| ResetPasswordPage.PasswordRule | src/pages/ResetPasswordPage.tsx:24-30 | a password passes iff it has at least 8 characters and equals its confirmation; a mismatch is reported on `confirmPassword` |
| ResetPasswordPage.EmailIssues | src/pages/ResetPasswordPage.tsx:20-22 | the request form passes iff the address is an e-mail |
| ResetPasswordPage.ScreenOf | src/pages/ResetPasswordPage.tsx:40-77 | after a request the check-your-e-mail screen shows; otherwise request mode iff `type` is missing or empty |
| ResetPasswordPage.SubmitRequest | src/pages/ResetPasswordPage.tsx:57-65 | a valid request calls the gateway and enters the sent state whatever the error |
| ResetPasswordPage.SubmitUpdate | src/pages/ResetPasswordPage.tsx:67-75 | a valid update calls the gateway and navigates to `/login` whatever the error |
| ResetPasswordPage.UpdateSentIffValid | src/pages/ResetPasswordPage.tsx:24-75 | the update reaches the gateway exactly when the password rule holds |
| ResetPasswordPage.RequestReachesCheckEmail | src/pages/ResetPasswordPage.tsx:57-77 | a valid request always ends on the check-your-e-mail screen |
| LoginPage.RedirectTarget | src/pages/LoginPage.tsx:20 | the page the user came from, or `/` |
| LoginPage.HandleLogin | src/pages/LoginPage.tsx:22-39 | empty fields are rejected without a sign-in call; navigation happens exactly on a clean sign-in, to the redirect target |
| LoginPage.LoginAgreesWithSignIn | src/pages/LoginPage.tsx:22-39 | for any filled fields, sign-in is called with them as typed (spaces are not trimmed), and the page navigates to the redirect target exactly when the auth handler raised its green welcome toast rather than the red error |
| LoginPage.SubmitButton | src/pages/LoginPage.tsx:81-82 | the submit button is disabled exactly while authentication is loading, and reads `Signing in...` exactly then and `Sign in` otherwise |
| Storage.Split | src/services/storage.ts:13 | `split('.')` gives at least one piece and no piece holds a dot |
| Storage.JoinSplit | src/services/storage.ts:13 | joining the pieces with dots gives the name back |
| Storage.ExtensionIsAfterLastDot | src/services/storage.ts:13 | the extension is the dot-free text after the last dot, or the whole name without one |
| Storage.UploadFile | src/services/storage.ts:6-36 | bucket `media` and folder `uploads` by default; the path is folder/id.ext; an error nulls path and URL and is returned |
| Storage.UploadKeepsExtension | src/services/storage.ts:13-15 | the stored path is under `uploads/` and ends in the id, a dot and the upload's extension |
| Storage.SignedUrlArgs | src/services/storage.ts:51-61 | temporary URLs default to 60 s in the `media` bucket |
| Storage.ListArgs | src/services/storage.ts:64-73 | each argument defaults on its own: a missing folder is `uploads` and a missing bucket `media`, and a given one is passed through |
| PostCard.ToggleComments | src/components/post/PostCard.tsx:37-42 | the panel flips on each toggle, and comments load only when it opens |
| PostCard.OpenThenClose | src/components/post/PostCard.tsx:37-42 | opening loads the post's comments; closing again restores the panel and loads nothing |
| PostCard.SubmitComment | src/components/post/PostCard.tsx:44-49 | a blank comment does nothing; otherwise it is added and the box cleared |
| PostCard.SubmitEnabled | src/components/post/PostCard.tsx:180 | the send button is enabled exactly when the comment holds a character `trim` does not remove |
| PostCard.LikeCount | src/components/post/PostCard.tsx:117 | the shown like count is the cached counter or 0 |
| PostCard.CommentCount | src/components/post/PostCard.tsx:126 | the shown comment count is the cached list's length or 0 |
| PostCard.SubmitRaisesCount | src/components/post/PostCard.tsx:44-126 | a non-blank comment raises the shown count by one on its post only, whatever array of rows the insert answered |
| PostCard.Menu | src/components/post/PostCard.tsx:79-89 | the author sees Edit/Delete; everyone else Report/Hide |
| ProfilePage.StripScheme | src/pages/ProfilePage.tsx:126 | the shown website is a suffix of the stored one |
| ProfilePage.StripSchemeSpec | src/pages/ProfilePage.tsx:126 | one leading `http://` or `https://` is removed and every other string is unchanged |
| ProfilePage.FollowClick | src/pages/ProfilePage.tsx:60-68 | a click flips following; the toast says Unfollowed when following before and Followed otherwise |
| ProfilePage.FollowTwice | src/pages/ProfilePage.tsx:60-68 | two clicks restore the state, one Followed and one Unfollowed |
| ProfilePage.HeaderButtonOf | src/pages/ProfilePage.tsx:98-110 | the owner sees Edit Profile; the follow button appears only on another user's profile |

## Left out

- Backend I/O: every query, auth call, realtime channel and storage request is a foreign call. Its answer or error is an input to the step function that consumes it.
- `database.ts` pass-through queries carry no decision logic of their own and are not modelled. These are `createPost`, `createComment`, `getUserProfile`, `updateUserProfile`, the follow and message queries, and `createNotification`.
- `getConversation` and `getUserConversations` are left out for the same reason.
- Timers: `setInterval` and `setTimeout` are discrete step events, and clearing an interval is the absence of further ticks.
- The per-post like-count loads after a page load run concurrently. They are modelled as independent single-key updates (`DataContext.SetLikeCount`).
- Media devices, track enabling, browser history and router navigation are left out. A navigation is modelled as the target it would go to.
- Dates and locale: message and story times, `date-fns` formatting and `Date.now()` ids are opaque parameters.
- `toLowerCase` is ASCII case folding.
- String lengths count Unicode scalar values rather than UTF-16 code units. This matters for the 8-character password minimum.
- The zod e-mail check and the uuid generator are parameters.
- Floats: marketplace price parsing and formatting. A typed price bound is recorded as present, not as a number.
- The stories sort comparator is not a consistent order, so no order of authors is assumed. Navigation is stated for any author order that covers the groups once, and `StoriesPage.UserOrder` is one such order.
- `handleTabChange` in the search page searches with the tab from before the change because of a stale closure. The tab change itself is not modelled.
- The stories page's submit handler likewise works on the state captured when it started, and no concurrent update is modelled.
- Presentation-only files are not modelled: the home, messages, notifications, groups, call and not-found pages, the layout, navbar, sidebars and weather widget.
- Several pages import queries that `database.ts` does not define. Their answers are inputs:
  - `GroupDetailPage`: the group, membership, posts and members queries (`GroupDetailPage.Answers`), and `createGroupPost` (the `reply` of `GroupDetailPage.CreatePost`, an array of rows, null, or a throw);
  - `SearchPage`: `search` and `searchUsers` (the `fetched` answer of `SearchPage.PerformSearch`);
  - `MarketplacePage`: `getProducts` (the `fetched` answer of `MarketplacePage.Load`);
  - `PagesDirectoryPage`: `getPages` (the `fetched` answer of `PagesDirectoryPage.Load`);
  - `StoriesPage`: `getStories`, `createStory` and `viewStory` (the loaded stories, and the `reply` of `StoriesPage.SubmitStory`: an array of rows, null, or an error).
- The group page's loading flag stays on when there is no route id or user. The model keeps that.
- The group page's member list is not modelled, so the members query's answer, or its throw, changes nothing in the model.
- PrivacySettings.Parse: only the layout that `JSON.stringify` writes for a settings record is recognised. The source's `JSON.parse` accepts any JSON text and casts it to the settings type unchecked; other text is modelled as a parse failure.
- PrivacySettings.Switch: only the four boolean keys are modelled. Applying the switch handler to a level key is not.
- MarketplacePage.Search: when a product's title does not match and its description is null, the source's filter throws. The model records this as a failed search (`None`), and `MarketplacePage.Load` then keeps the old products, as the surrounding `try`/`catch` leaves them.
- SettingsPage.Save: the error is an input. The profile helper it calls raises its own toast as well, and that second toast is not modelled.
- ProfilePage.HeaderButtonOf: the page's profile is mock data with `isCurrentUser` true, so in the source the follow button never shows. The rule is stated for either value.
- `formatNotificationText` has a default case no notification type reaches. It is not modelled.
- Story author ids are assumed non-empty (`StoriesPage.UserId`), as backend user ids are.
- The `toggleLike` lookup failure path (a failed select before the insert or delete) is not modelled. Only the write error is.
- Read-marking and like toggles update the cache only after the server answers. There is no pending state and no rollback.
- Sign-in does not itself set the user; the auth listener does.
- The reset page is in request mode when `type` is empty as well as when it is absent.
