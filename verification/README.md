# DispatchHub front end — a Dafny model

DispatchHub is a field-service dispatch application. This project models the
rules under its Next.js front end:

- the live-tracking map, which keeps a ledger of markers over a map surface
  and rebuilds every marker whenever one of its effect's inputs changes (the
  two lists and the two click callbacks; the tracking page passes a fresh
  callback on every render, so there every render rebuilds);
- the tracking, work-order, team, dashboard and analytics pages, which hold
  status and role lookups, list filters and counts, form validation and
  payload shaping, role-gated controls and chart-label formatting;
- the authentication context, which restores, opens, updates and closes the
  session over two browser-storage keys;
- the shared enumerations of `lib/constants.ts`.

Network replies, decoded tokens, the current time, `parseInt` results and
date formatting are inputs of the model. Nothing is fetched or stored.

Modules, one file each:

| file | module | models |
|---|---|---|
| `wrappers.dfy` | `Wrappers` | `Option` and `Result` |
| `text.dfy` | `Text` | the JavaScript string operations the pages use: replace-first, ASCII upper-casing, split and join, word capitalisation |
| `listing.dfy` | `Listing` | the `'all'`-or-equal filter every page applies, and counts by key |
| `constants.dfy` | `Constants` | `lib/constants.ts` |
| `entities.dfy` | `Entities` | the records the pages exchange with the backend, the staff-page guard, `x \|\| fallback` |
| `auth.dfy` | `Auth` | `lib/AuthContext.tsx`; `AuthProvider` is a class |
| `map_component.dfy` | `MapView` | `components/MapComponent.tsx`; `MapComponent` is a class |
| `tracking.dfy` | `Tracking` | `components/TrackingPage.tsx`; `fetchData` is a method of `TrackingView` |
| `work_orders.dfy` | `WorkOrders` | `components/WorkOrdersPage.tsx` |
| `team.dfy` | `Team` | `components/TeamPage.tsx` |
| `dashboard.dfy` | `Dashboard` | `app/dashboard/page.tsx` |
| `analytics.dfy` | `Analytics` | `components/AnalyticsPage.tsx` |

Each refresh of the map removes every marker and creates them all again:
there is no diff of snapshots, no generation stamp on fetches, no pause and
no dropping of overlapping ticks. A refresh whose reply does not parse keeps
the previous lists. The icon colour tables have no fallback entry.

## Model

| member | source | states |
|---|---|---|
| Constants.ParseRole | lib/constants.ts:3-7 | a string names a role exactly when it is that role's value, so the three values are distinct |
| Constants.ParseStatus | lib/constants.ts:9-15 | a string names a work-order status exactly when it is that status's value |
| Constants.ParsePriority | lib/constants.ts:17-22 | a string names a priority exactly when it is that priority's value |
| Constants.ParseAvailability | lib/constants.ts:39-43 | a string names an availability exactly when it is that availability's value |
| Constants.ValuesDistinct | lib/constants.ts:3-22 | within each enumeration, distinct members have distinct strings |
| Constants.StatusColorsOnePerStatus | lib/constants.ts:24-30 | STATUS_COLORS has a key for every status and no key that is not a status |
| Constants.PriorityColorsOnePerPriority | lib/constants.ts:32-37 | PRIORITY_COLORS has a key for every priority and no key that is not a priority |
| Constants.StatusColor | lib/constants.ts:24-30 | the lookup is total over the statuses and yields a colour of the table |
| Constants.PriorityColor | lib/constants.ts:32-37 | the lookup is total over the priorities and yields a colour of the table |
| Text.IndexOf | components/AnalyticsPage.tsx:86 | the position of the first occurrence, or the length when there is none |
| Text.ReplaceFirst | components/TrackingPage.tsx:275 | `replace('_', ' ')` keeps the length, changes only the first occurrence, and returns the text unchanged when there is none |
| Text.ReplaceFirstKeepsLaterOccurrences | components/TeamPage.tsx:279 | a second underscore survives the replacement |
| Text.ToUpper | app/dashboard/page.tsx:123 | upper-casing works character by character and keeps the length |
| Text.UpperFirst | components/AnalyticsPage.tsx:80 | `charAt(0).toUpperCase() + slice(1)` changes only the first character |
| Text.Split | components/AnalyticsPage.tsx:86 | `split` yields at least one piece and no piece holds the separator |
| Text.JoinSplit | components/AnalyticsPage.tsx:86 | `Text.Join` (`join`) undoes `Text.Split`: joining the pieces of a split with the same separator gives the text back |
| Text.MapUpperFirst | components/AnalyticsPage.tsx:86 | one capitalised word per word, in order |
| Text.CapitalizeAfterSpaces | components/AnalyticsPage.tsx:86 | the reference definition: upper-case exactly the characters that open the text or follow a space; length kept |
| Text.CapitalizeTail | components/AnalyticsPage.tsx:86 | the split/map/join pipeline equals the reference definition |
| Text.CapitalizeWords | components/AnalyticsPage.tsx:86 | split on spaces, capitalise each word, join: equal to the reference definition |
| Text.BadgeLabel | components/TrackingPage.tsx:275 | the badge text: the first underscore becomes a space, every other character is upper-cased (also TeamPage.tsx:279 and dashboard/page.tsx:123) |
| Text.BadgeLabelReplacesFirstOnly | app/dashboard/page.tsx:123 | `a_b_c` is shown as `A B_C` |
| Listing.Matching | components/TrackingPage.tsx:138-142 | `filter(x => key(x) === v)` keeps only entries with that key and is no longer than the list |
| Listing.Count | components/TrackingPage.tsx:138-142 | `filter(...).length` is at most the length of the list |
| Listing.MatchingIsExact | components/TeamPage.tsx:207-231 | the matches keep their order, and an entry is among them exactly when it has the key |
| Listing.Filter | components/TrackingPage.tsx:133-135 | `'all'` returns the list unchanged; any other selection returns exactly the entries with that key, in order, as many as the count |
| Listing.SubsequenceRefl | components/TrackingPage.tsx:133-135 | the `'all'` list, which is the list itself, keeps the order |
| Entities.StaffPageAccess | components/TrackingPage.tsx:64-76 | no user or falsy token goes to `/login`, a field worker goes to `/dashboard`, everyone else loads (also TeamPage.tsx:35-48 and AnalyticsPage.tsx:40-52) |
| Entities.MessageOr | lib/AuthContext.tsx:74 | `message \|\| fallback`: a missing or empty message gives the fallback |
| Auth.Merge | lib/AuthContext.tsx:107-109 | `{ ...user, ...patch }`: a field in the patch wins, any other field is kept |
| Auth.MergeLaws | lib/AuthContext.tsx:107-109 | an empty patch keeps the user; merging the same patch twice is merging it once |
| Auth.RestoreDecision | lib/AuthContext.tsx:37-56 | (with the `Auth.Expired` test of line 44) nothing happens unless both stored entries are truthy; a failed decode, `exp*1000 < now` (strict) or a user entry that does not parse logs out; otherwise both are restored |
| Auth.DerivedFlags | lib/AuthContext.tsx:123-126 | `isAuthenticated` iff there is a user, whatever the token; each role flag iff the user has that role |
| Auth.AtMostOneRoleFlag | lib/AuthContext.tsx:123-126 | at most one role flag holds, and a role flag implies authentication |
| Auth.UseAuth | lib/AuthContext.tsx:24-30 | outside a provider the hook fails with its message; inside it returns the context |
| Auth.AuthProvider.constructor | lib/AuthContext.tsx:32-35 | starts with no user, no token, loading |
| Auth.AuthProvider.Logout | lib/AuthContext.tsx:100-105 | both keys are removed and token and user cleared |
| Auth.AuthProvider.RestoreSession | lib/AuthContext.tsx:37-56 | applies the restore decision to the state and storage; `loading` ends false in every case |
| Auth.AuthProvider.Authenticate | lib/AuthContext.tsx:58-97 | success stores both keys and sets token and user; failure changes nothing and returns the message or the fallback |
| Auth.AuthProvider.Login | lib/AuthContext.tsx:58-77 | as Authenticate, with fallback `Login failed` |
| Auth.AuthProvider.Register | lib/AuthContext.tsx:79-98 | as Authenticate, with fallback `Registration failed` |
| Auth.AuthProvider.UpdateUser | lib/AuthContext.tsx:107-113 | with a user, merges the patch and persists it under the user key; without one, changes nothing |
| Auth.LoginThenRestore | lib/AuthContext.tsx:37-69 | what a successful login stores is restored unchanged on reload while the token has not expired |
| MapView.Position | components/MapComponent.tsx:148-151 | a `[lng, lat]` pair is placed at `[lat, lng]` |
| MapView.WorkerColor | components/MapComponent.tsx:84-95 | the worker icon has a colour exactly for the four worker statuses (green, blue, gray and orange hex values for available, on_job, offline and break); any other status has none |
| MapView.WorkOrderColor | components/MapComponent.tsx:115-126 | the work-order icon has a colour exactly for the four priorities (red, orange, yellow and green hex values for critical, high, medium and low); any other value has none |
| MapView.ColorsTellKeysApart | components/MapComponent.tsx:84-126 | distinct statuses, and distinct priorities, get distinct colours |
| MapView.BatteryLine | components/MapComponent.tsx:168-172 | the battery line shows exactly when the battery is truthy, so 0 hides it |
| MapView.WorkerMarkers | components/MapComponent.tsx:147-184 | one marker per location, in input order |
| MapView.WorkOrderMarkers | components/MapComponent.tsx:187-219 | one marker per work order, in input order |
| MapView.IconOf | components/MapComponent.tsx:84-149 | (the icon calls of lines 149 and 189) a worker marker gets a worker icon, coloured exactly when its status is one of the four; an order marker gets an order icon, coloured exactly when its priority is one of the four |
| MapView.PopupOf | components/MapComponent.tsx:153-177 | a worker's popup shows that worker's name, email and last update, the status with its first underscore made a space, and the battery line exactly when the battery is truthy; an order's popup (lines 193-212) shows its title, priority, address and status the same way |
| MapView.RebuiltLedgerShape | components/MapComponent.tsx:147-219 | the rebuilt ledger holds `\|locations\| + \|workOrders\|` markers, workers first, each at its swapped position, clickable exactly when the callback is given, each click reporting its own record |
| MapView.RebuiltHandlesFrom | components/MapComponent.tsx:147-219 | every marker of a rebuilt ledger has a handle at least the counter it started from, so none reuses an old handle |
| MapView.HandleSetSnoc | components/MapComponent.tsx:183 | pushing a marker adds exactly its handle to the ledger's handles |
| MapView.Positions | components/MapComponent.tsx:222-224 | the points the fit covers are the ledger's positions, in order |
| MapView.MapComponent.constructor | components/MapComponent.tsx:48-50 | no map, an empty ledger, nothing on the surface |
| MapView.MapComponent.Init | components/MapComponent.tsx:53-65 | a map is created only when the container exists and no map exists yet, so a second call changes nothing |
| MapView.MapComponent.Cleanup | components/MapComponent.tsx:67-72 | the map is removed from the surface and the handle reset |
| MapView.MapComponent.ClearMarkers | components/MapComponent.tsx:79-81 | every ledger marker is removed from the surface and the ledger emptied |
| MapView.MapComponent.PushMarker | components/MapComponent.tsx:183 | pushing a marker whose handle is the next one appends it to the ledger and makes exactly its handle live, keeping the ledger and the live set equal |
| MapView.MapComponent.AddWorkerMarkers | components/MapComponent.tsx:147-184 | the ledger grows by the worker markers, in order, numbered on from the next handle, and stays equal to the live set |
| MapView.MapComponent.AddWorkOrderMarkers | components/MapComponent.tsx:187-219 | the ledger grows by the work-order markers, in order, numbered on from the next handle, and stays equal to the live set |
| MapView.MapComponent.RecreateMarkers | components/MapComponent.tsx:79-219 | after clearing and re-adding, the ledger is exactly the rebuilt ledger and no marker of the old ledger is still on the surface |
| MapView.MapComponent.Rebuild | components/MapComponent.tsx:76-227 | with no map nothing changes; otherwise no old marker stays live, the ledger is exactly the rebuilt ledger and equals the live set, and a fit with padding 0.1 happens iff the ledger is non-empty |
| Tracking.StatusColor | components/TrackingPage.tsx:113-122 | the gray style exactly for `offline` and for any unknown status |
| Tracking.StatusIcon | components/TrackingPage.tsx:124-131 | `✅`, `🚀`, `⚫` and `☕` for available, on_job, offline and break; `❓` exactly for a status outside the four |
| Tracking.ComputeStats | components/TrackingPage.tsx:137-143 | the total is the length of the unfiltered list |
| Tracking.FilterOnlyNarrowsWorkers | components/TrackingPage.tsx:133-143 | for the page's `Tracking.Render` with the list `Tracking.FilteredLocations`: the counts do not depend on the filter; the map gets the listed workers and every work order |
| Tracking.ListedMatchesCount | components/TrackingPage.tsx:133-143 | the number of workers listed under a filter equals the count shown for it |
| Tracking.StatsAddUp | components/TrackingPage.tsx:31 | when every status is one of the four, the four counts add up to the total |
| Tracking.MapShowsListedWorkersAndAllOrders | components/TrackingPage.tsx:321-325 | after a rebuild the map holds one marker per listed worker plus one per work order |
| Tracking.TrackingView.constructor | components/TrackingPage.tsx:57-61 | empty lists, loading, filter `all`, nothing selected |
| Tracking.TrackingView.BeginFetch | components/TrackingPage.tsx:88-89 | a non-silent fetch sets `loading`; a silent one leaves it |
| Tracking.TrackingView.CompleteFetch | components/TrackingPage.tsx:101-110 | both lists are replaced only when both bodies parsed, else neither; a non-silent fetch clears `loading`, a silent one leaves it |
| Tracking.TrackingView.FetchData | components/TrackingPage.tsx:88-111 | both steps together: the lists change only as a pair, `loading` ends where it began for a silent fetch and false otherwise |
| Tracking.TrackingView.SetFilter | components/TrackingPage.tsx:61 | only the filter changes |
| Tracking.TrackingView.Select | components/TrackingPage.tsx:263 | only the selection changes, to a copy of the clicked record |
| WorkOrders.PriorityColor | components/WorkOrdersPage.tsx:215-223 | the gray default exactly for a value outside the four priorities; red, orange, yellow and green for critical, high, medium and low |
| WorkOrders.StatusColor | components/WorkOrdersPage.tsx:225-234 | the gray default exactly for `cancelled` and for a value outside the five statuses; green, blue, purple and yellow for completed, in progress, assigned and pending |
| WorkOrders.StatusBadgeDiffersFromSharedTable | components/WorkOrdersPage.tsx:230 | the page's pending badge differs from the one in STATUS_COLORS |
| WorkOrders.FilteredOrdersExact | components/WorkOrdersPage.tsx:236-238 | `WorkOrders.FilteredOrders`: `all` keeps every order; any other filter keeps exactly the orders with that status, in order, as many as the orders with that status |
| WorkOrders.StatusControlOffered | components/WorkOrdersPage.tsx:380 | the status control is offered for pending, assigned and in-progress orders, and withheld only from completed and cancelled ones |
| WorkOrders.CanCreate | components/WorkOrdersPage.tsx:264 | the create button is withheld exactly from a field worker; with no user it shows |
| WorkOrders.OnMount | components/WorkOrdersPage.tsx:74-83 | no user or falsy token goes to `/login`; otherwise orders load, plus field workers for every role but field_worker |
| WorkOrders.FieldWorkersFetchedForCreators | components/WorkOrdersPage.tsx:80-82 | field workers are fetched exactly for the users who see the create button |
| WorkOrders.OrUndefined | components/WorkOrdersPage.tsx:136 | `value \|\| undefined`: absent exactly when empty |
| WorkOrders.DurationOrDefault | components/WorkOrdersPage.tsx:149 | `parseInt(...) \|\| 60`: NaN and 0 give 60, any other number is kept |
| WorkOrders.PrepareCreate | components/WorkOrdersPage.tsx:119-150 | rejects exactly a form missing a customer name, phone, latitude or longitude, with the customer message first; otherwise the payload (built by `WorkOrders.BuildPayload`) passes title, description, priority, address and the customer's name and phone through, sends `[longitude, latitude]`, gives each optional text (email, city, state, zip code, assignee, date) as absent when empty and as itself otherwise, and defaults the duration |
| WorkOrders.WorkOrdersView.constructor | components/WorkOrdersPage.tsx:48-72 | no orders, modal closed, the initial form, filter `all` |
| WorkOrders.WorkOrdersView.SubmitCreate | components/WorkOrdersPage.tsx:115-194 | a rejected form sends nothing; success closes the modal, resets the form to priority `medium` and duration `60` and refetches; failure leaves form and modal as they were, with the server message or the fallback |
| Team.RoleBadgeColor | components/TeamPage.tsx:133-140 | the gray badge exactly for a role outside the three (the same switch as app/dashboard/page.tsx:26-33) |
| Team.RoleIcon | components/TeamPage.tsx:142-149 | `👤` exactly for a role outside the three |
| Team.CountRoles | components/TeamPage.tsx:196-231 | the total is the length of the full list, and each role count is at most that |
| Team.CountsIgnoreFilter | components/TeamPage.tsx:151-153 | for the page's `Team.Render` with the list `Team.FilteredMembers`: the counts do not depend on the filter; the listed cards are exactly the members with the chosen role, in order, as many as that role's count |
| Team.RoleCountsAddUp | components/TeamPage.tsx:207-231 | when every role is one of the three, the three role cards add up to the total |
| Team.CheckMember | components/TeamPage.tsx:69-72 | rejects exactly a form with an empty name, email or password; phone is optional |
| Team.RemoveNeverOnSelf | components/TeamPage.tsx:309 | of the guards `Team.RemoveVisible` (line 309) and `Team.AddVisible` (line 179): no remove button on the viewer's own card, and none for anyone but an admin |
| Team.ManagersSeeNoAdminControls | components/TeamPage.tsx:36-45 | a manager is let in but sees neither the add button nor a remove button |
| Team.DeleteMember | components/TeamPage.tsx:106-131 | declining the confirmation sends nothing; otherwise a delete for that member is sent and the list refetched only on success |
| Team.TeamView.constructor | components/TeamPage.tsx:20-33 | no members, modal closed, the blank field-worker form, filter `all` |
| Team.TeamView.SubmitAdd | components/TeamPage.tsx:66-104 | a rejected form sends nothing; success closes the modal and resets the form to role `field_worker`; failure leaves form and modal as they were |
| Dashboard.ItemsFor | app/dashboard/page.tsx:80-82 | every kept item lists the role, and no more items than declared are kept |
| Dashboard.ItemsForExact | app/dashboard/page.tsx:80-82 | the visible items keep declaration order, and an item is visible exactly when its role list contains the role |
| Dashboard.FieldWorkerNavigation | app/dashboard/page.tsx:35-82 | `Dashboard.VisibleNavItems`: a field worker sees Work Orders, Messages and My Performance |
| Dashboard.StaffNavigation | app/dashboard/page.tsx:35-82 | admin and manager each see Work Orders, Team Members, Live Tracking, Messages and Analytics |
| Dashboard.UnknownRoleNavigation | app/dashboard/page.tsx:80-82 | a role outside the three sees no navigation |
| Dashboard.Names | app/dashboard/page.tsx:35-78 | one name per item, in order |
| Dashboard.RoleEmoji | app/dashboard/page.tsx:129 | `👨‍💼` for admin, `👔` for manager, `🔧` for every other role |
| Dashboard.EmojiVersusTeamIcon | app/dashboard/page.tsx:129 | the emoji agrees with the team page's icon on the three roles and differs on every other |
| Dashboard.Render | app/dashboard/page.tsx:22-129 | nothing without a user; otherwise the badge colour, the role label, the emoji and the navigation of the user's role |
| Dashboard.RedirectOnMount | app/dashboard/page.tsx:11-15 | the page redirects to `/login` exactly when there is no user, and then renders nothing |
| Dashboard.HandleLogout | app/dashboard/page.tsx:17-20 | the session is cleared, both keys removed, and the target is `/login` |
| Analytics.PriorityLabel | components/AnalyticsPage.tsx:79-82 | the key with its first character upper-cased and the rest unchanged |
| Analytics.StatusLabel | components/AnalyticsPage.tsx:85-88 | the label has the key's length |
| Analytics.StatusLabelAt | components/AnalyticsPage.tsx:86 | a character is upper-cased exactly when it opens the replaced key or follows a space in it |
| Analytics.StatusLabelInProgress | components/AnalyticsPage.tsx:86 | `in_progress` becomes `In Progress` |
| Analytics.StatusLabelKeepsLaterUnderscore | components/AnalyticsPage.tsx:86 | an underscore after the first is left in the label |
| Analytics.PrioritySeries | components/AnalyticsPage.tsx:79-82 | one point per row, in the server's order, with the row's count |
| Analytics.StatusSeries | components/AnalyticsPage.tsx:85-88 | one point per row, in the server's order, with the row's count |
| Analytics.TimelineSeries | components/AnalyticsPage.tsx:70-76 | one point per row, in order, with the counts copied |
| Analytics.RevenueSeries | components/AnalyticsPage.tsx:93-97 | one point per row, in order, with revenue and jobs copied |
| Analytics.PieColor | components/AnalyticsPage.tsx:214 | slice `i` gets `primary[i]` for the first five, and always a colour of the palette |
| Analytics.PieColorsCycle | components/AnalyticsPage.tsx:106-109 | the fills repeat every five slices, and neighbouring slices differ |
| Analytics.Medal | components/AnalyticsPage.tsx:266 | ranks 0, 1 and 2 get the three medals, and exactly the ranks from 3 on get `⭐` |
| Analytics.ReadCount | components/AnalyticsPage.tsx:54-98 | a rejected request reads nothing; all six bodies are read exactly when all parsed |
| Analytics.AnalyticsView.constructor | components/AnalyticsPage.tsx:32-38 | loading, no stats and every series empty |
| Analytics.AnalyticsView.FetchAnalytics | components/AnalyticsPage.tsx:54-104 | the states are set in order up to the first body that fails, the rest keep their values, and `loading` is false afterwards in every case |

## Left out

- Network and storage I/O: every `fetch`, `api.post`, `localStorage` call and `jwtDecode`. Their results are inputs: `PostReply`, `ServerReply`, `FetchOutcome`, `Replies`, `Decoded` and the storage map.
- The list fetches (`fetchWorkOrders`, `fetchFieldWorkers`, `fetchTeamMembers`, and `fetchData` in components/TrackingPage.tsx:101-105) store whatever JSON arrives, error bodies included; the model keeps lists as lists and does not model a non-array body.
- `fetchAnalytics` (components/AnalyticsPage.tsx:66 and 91) stores any JSON body in `stats` and `topWorkers`, error bodies included, and its four `.map` calls throw on a body that is not an array. In `Replies` a body is either a value of the expected shape or `None`, which stands for both a failed parse and a throwing `.map`; an error body stored as stats or top workers is not modelled.
- `handleStatusUpdate` on the work-order page (a PUT followed by a refetch): nothing of it is stated beyond the control that offers it.
- The auto-refresh timer of the tracking page (`setInterval` every 10 seconds, `clearInterval`): it is timer plumbing. A refresh is a call of `FetchData(true, …)`. Overlapping refreshes are not modelled, and the code does nothing about them.
- Leaflet: tile layers, `divIcon` markup, popup HTML, and the bounds arithmetic of `getBounds().pad(0.1)`. A fit is recorded as its points and the padding. `map.remove()` disposing the markers still on it is not modelled.
- When a rebuild happens: the marker effect of components/MapComponent.tsx:227 runs when `locations`, `workOrders`, `onMarkerClick` or `onWorkOrderClick` changes identity. The tracking page passes a new arrow function as `onMarkerClick` on each render (components/TrackingPage.tsx:324), so every render of that page rebuilds every marker and refits the view. The model provides `Rebuild` as the operation; React's dependency comparison that triggers it is not modelled.
- MapView.Position: states only the swap; the real-number coordinates are never computed on.
- `parseFloat` of the coordinates: the payload carries the two texts in the order they are sent. `parseInt` of the duration is an input; only its `|| 60` fallback is modelled.
- `Math.round(speed * 3.6)`, `toFixed(6)` and every `toLocale…String`; the analytics date labels come from the `formatDate` parameter.
- Text.UpperChar: upper-cases ASCII `a`–`z` only; JavaScript's `toUpperCase` also maps other letters.
- User records carry `id`, `name`, `email`, `role` and `phone`; `createdAt` and `status` are not used by any modelled rule.
- Auth.RestoreDecision: a stored user is either a user record or text that does not parse; JSON text for some other value is not distinguished.
- Analytics.StatusLabel: its contract states the length only; what each character becomes is stated by `Analytics.StatusLabelAt`.
- Alerts, confirmations, modals' markup and `router.push` are not modelled: alert texts and redirect targets are returned as values.
- `app/layout.tsx`, `app/page.tsx`, `app/login/page.tsx` and `components/common/LoadingSpinner.tsx` are not part of this model.
- The dashboard's quick-stats cards and the analytics charts' layout: presentation only.
