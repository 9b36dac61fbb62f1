# Google Calendar dashboard: event pipeline model

A Dafny model of the client-side event pipeline of the dashboard screen of a
single-page app that shows a user's Google Calendar events. The model covers:

- the date filter over the fetched events;
- the grid rows built from the filtered events, with their placeholders;
- the fetch-once-on-mount loader and its three reply outcomes;
- row selection, the detail panel's Close, and logout;
- the profile name and email placeholders.

Files:

- `wrappers.dfy` (module `Wrappers`): `Option` and a map lookup.
- `events.dfy` (module `CalendarEvents`): the code that only computes values.
  This is the event record, the filter (`KeepMatching`, `VisibleEvents`), the
  row builder (`ToRow`, `RowsOf`), the placeholders, and the mount effect's
  latch as a state transformer (`FetchEffect`, `Rerun`).
- `events.dfy` also holds the lemmas about those functions: the filter is a
  subsequence, is determined uniquely and is idempotent; row ids are
  positional; an effect re-run starts no second fetch.
- `dashboard.dfy` (module `DashboardView`): class `Dashboard`. It has one field
  per React state variable (`events`, `filteredEvents`, `profile`, `loading`,
  `fetched`, `filterDate`, `selected`), plus the router's `location` and the
  browser's `localStorage` as a `map<string, string>`. Each handler is a method.
  `Valid()` holds the invariants every handler keeps:
  - the grid shows exactly `VisibleEvents(events, filterDate)`;
  - at most one events request starts per mount;
  - `loading` is on exactly until that request's reply has been handled;
  - events and profile are still empty before the reply arrives;
  - the authorization code stays removed while a logout is outstanding.

Strings are `seq<char>`, and "has `f` as a literal prefix" (`startsWith`) is
the sequence prefix `f <= s`. A JavaScript string is "truthy" when it is
present and not `""` (`Present`). `v || fallback` is `OrElse`.

The network is a parameter. `RunFetchEffect` records, in ghost fields, that the
events request has started. `HandleEventsReply` takes the parsed reply as an
`EventsReply`:

- `EventsOk(events, profile)`: `success` was truthy. `events` is None when the
  payload's `events` is not an array. `profile` is None when it is absent or
  null.
- `EventsRefused(message)`: `success` was falsy.
- `EventsThrew`: the request, the JSON parse or reading the body threw.

Logout is likewise split into `StartLogout` and `HandleLogoutReply`. The first
removes the stored code and sends the request. The second takes the
`LogoutReply`. The split shows that the code is gone while the request is
still unanswered.

The filter and the grid read the start differently:

- The grid displays one normalised start (`dateTime`, else `date`), but the
  filter tests `start.dateTime` and `start.date` separately.
- `FilterMatchesDisplayedStart` proves the two agree when exactly one of the
  two fields is a non-empty string, which is the case for Google Calendar
  events.
- `FilterCanDisagreeWithDisplayedStart` gives two inputs where the two
  predicates differ. One event has both fields. The other has no start at
  all, so the grid shows "No Start Time" while the filter "No" hides it.
- Neither input is a screen a user can reach. The date input
  (`src/components/Dashboard.js:244`) only yields `""` or `YYYY-MM-DD`, and
  the calendar service sends one start field per event. The lemma compares the
  predicates, not reachable screens.

The absent-profile case (`src/components/Dashboard.js:47`) works as follows.
`Object.keys` of `undefined`/`null` throws after `setEvents` has run. So the
events are stored, the profile keeps its initial `{}`, no navigation happens,
and `finally` clears `loading`. `HandleEventsReply` states exactly this.
For a JSON object `p`, `Object.keys(p).length ? p : {}` returns a value
equal to `p`, and the contract says so (`profile == reply.profile.value`).

## Model

| member | source | states |
|---|---|---|
| `CalendarEvents.KeepMatching` | src/components/Dashboard.js:67-71 | `events.filter` on the start-prefix test. The result is an order-preserving subsequence of the input. It holds only events whose `start.dateTime` or `start.date` begins with the filter. It holds every matching occurrence, with its multiplicity. |
| `CalendarEvents.VisibleEvents` | src/components/Dashboard.js:65-76 | The effect's value. An empty filter gives the events unchanged. A non-empty filter gives a subsequence whose members are exactly the events with a matching start, each as often as in the input. |
| `CalendarEvents.KeepMatchingUnique` | src/components/Dashboard.js:67-71 | Any list that is a subsequence of the events, contains only matching events and keeps every matching occurrence equals the filter's result. This is a reference characterisation, independent of the recursion. |
| `CalendarEvents.VisibleEventsIdempotent` | src/components/Dashboard.js:66-75 | Filtering the filtered list again with the same string changes nothing. |
| `CalendarEvents.EventWithoutStartHidden` | src/components/Dashboard.js:69-70 | With a non-empty filter, an event with neither `start.dateTime` nor `start.date` is not shown. |
| `CalendarEvents.IsSubsequenceReflexive` | src/components/Dashboard.js:74 | The unfiltered list (empty filter) is trivially a subsequence of the events. |
| `CalendarEvents.SubsequenceMultiset` | src/components/Dashboard.js:67-71 | A subsequence never holds an element more often than the list it came from, so filtering never duplicates an event. |
| `CalendarEvents.FieldStartsWith` | src/components/Dashboard.js:69-70 | The optional-chained `startsWith` test is truthy iff the field is present, at least as long as the filter, and agrees with it at every index of the filter. |
| `CalendarEvents.StartMatches` | src/components/Dashboard.js:68-70 | The filter callback. A non-empty filter matches only events with a non-empty `start.dateTime` or `start.date`. An empty filter would match any event with either field present. |
| `CalendarEvents.Present` | src/components/Dashboard.js:135-138 | JavaScript truthiness of a string-or-undefined value, which the fallbacks at 135-138, 192 and 195 rely on: falsy exactly for `undefined` and `""`. |
| `CalendarEvents.OrElse` | src/components/Dashboard.js:135-138 | JavaScript's logical or of a string value and a fallback. A missing value or `""` gives the fallback. A non-empty fallback gives a non-empty result. |
| `CalendarEvents.DisplayTime` | src/components/Dashboard.js:136-137 | The chained logical or of `dateTime`, `date` and a placeholder. Gives `dateTime` when it is non-empty, else `date` when that is non-empty, else the placeholder. |
| `CalendarEvents.ToRow` | src/components/Dashboard.js:134-138 | A row has the given id. `summary` and `details` fall back to "No Summary" and "No additional details" exactly when the event's value is missing or empty. `start` and `end` are the three-way fallbacks of `DisplayTime` with "No Start Time" and "No End Time". Every field is non-empty. |
| `CalendarEvents.RowsOf` | src/components/Dashboard.js:133-139 | One row per filtered event, in the same order. Row k is built from event k and has id k + 1. |
| `CalendarEvents.RowsWellFormed` | src/components/Dashboard.js:133-139 | Row ids are 1..n and pairwise distinct. Every row of the grid has four non-empty fields. |
| `CalendarEvents.RowIdsFollowFilter` | src/components/Dashboard.js:134 | Ids are positional, not stable. The same event has id 2 unfiltered and id 1 once the filter drops the event before it. |
| `CalendarEvents.FilterMatchesDisplayedStart` | src/components/Dashboard.js:69-70 | When exactly one start field is a non-empty string, the filter keeps the event iff the displayed start (row field at line 136) begins with the filter. |
| `CalendarEvents.FilterCanDisagreeWithDisplayedStart` | src/components/Dashboard.js:69-70 | Two concrete events where "kept by the filter" and "displayed start begins with the filter" differ. One has both start fields. The other has no start and shows "No Start Time". |
| `CalendarEvents.DisplayName` | src/components/Dashboard.js:192 | Shows the profile's `name` when it is a non-empty string, otherwise "User Name". Never empty. |
| `CalendarEvents.DisplayEmail` | src/components/Dashboard.js:195 | Shows the profile's `email` when it is a non-empty string, otherwise "user@example.com". Never empty. |
| `CalendarEvents.DetailTitle` | src/components/Dashboard.js:274 | The detail title is the row's summary when that is non-empty and "No Summary" when it is empty. |
| `DashboardView.Dashboard.SelectedTitleIsSummary` | src/components/Dashboard.js:263-274 | For the row the detail panel shows, the title's fallback never fires: the title is the selected row's own summary. |
| `CalendarEvents.FetchEffect` | src/components/Dashboard.js:59-62 | One run of the mount effect. Afterwards `fetched` is set. A fetch starts exactly when `fetched` was false before. |
| `CalendarEvents.RerunAfterFetchChangesNothing` | src/components/Dashboard.js:59-63 | Once `fetched` is set, any number of further effect runs starts no fetch. |
| `CalendarEvents.RerunsStartOneFetch` | src/components/Dashboard.js:59-63 | From mount (`fetched` false, nothing started), n >= 1 effect runs start exactly one fetch. |
| `Wrappers.Get` | src/components/Dashboard.js:192-195 | Property lookup on a JSON object: present exactly when the key is one of its own keys, then with that key's value. |
| `DashboardView.Dashboard.constructor` | src/components/Dashboard.js:20-28 | Mount state: no events, empty profile, `loading` on, `fetched` off, empty filter, nothing selected, at `/dashboard`, nothing requested yet. |
| `DashboardView.Dashboard.RunFetchEffect` | src/components/Dashboard.js:59-62 | Follows `FetchEffect`. The latch is set before the request starts. The request is pending afterwards iff one was pending or the latch was off. |
| `DashboardView.Dashboard.HandleEventsReply` | src/components/Dashboard.js:44-56 | Every outcome clears `loading` and keeps the invariants. On success, events are `data.events` if it is an array, else `[]`. On success with a profile, the profile is that profile; otherwise it stays `{}`. Only a refusal navigates to `/`, and then events are unchanged. A throw changes nothing but `loading`. |
| `DashboardView.Dashboard.RefreshFilteredEvents` | src/components/Dashboard.js:65-76 | Sets `filteredEvents` to `VisibleEvents(events, filterDate)` and changes nothing else. |
| `DashboardView.Dashboard.SetFilterDate` | src/components/Dashboard.js:248 | The date input sets `filterDate`, and the filter effect re-derives `filteredEvents` from it. |
| `DashboardView.Dashboard.HandleRowClick` | src/components/Dashboard.js:106-108 | The clicked row replaces any earlier selection. The selection stays a row with non-empty fields. |
| `DashboardView.Dashboard.CloseDetails` | src/components/Dashboard.js:288 | Close clears the selection. |
| `DashboardView.Dashboard.StartLogout` | src/components/Dashboard.js:78-80 | `authorization_code` is removed from storage, and nothing else is removed, before the logout request is sent. |
| `DashboardView.Dashboard.HandleLogoutReply` | src/components/Dashboard.js:84-93 | Navigates to `/` only on `success: true`; otherwise the location is unchanged. The code stays removed whatever the reply. |

## Left out

- Network I/O: the `fetch` calls, URLs, credentials and headers, and parsing
  with `response.json()`. The parsed reply is an argument (`EventsReply`,
  `LogoutReply`).
- Values of the wrong JSON type: event fields that are not strings, a profile
  that is a JSON array (an empty one becomes `{}`) or a non-object primitive,
  array elements that are not objects. The
  model types them as strings, a string map and event records.
- Async scheduling. Each handler is one atomic step. React's batching and
  effect re-run timing, unmounting after navigation, and replies that arrive
  after unmount are not modelled.
- A logout request that throws becomes an unhandled promise rejection. The
  model treats it like a refusal: no navigation.
- The Login screen (`src/components/Login.js`) and the route table (`src/App.js`).
  These are thin wrappers over the identity-provider hook and the router. The
  only route used is `/dashboard` for the mounted screen.
- Rendering, layout, the theme, DataGrid pagination, and the profile popover's
  anchor (`src/components/Dashboard.js:96-104`, `110-131`, `141-298` apart from
  the placeholders and handlers cited above). These hold no logic beyond what
  is modelled.
- Console logging, which has no observable state.
- The commented-out earlier version of the component at
  `src/components/Dashboard.js:308-413`.
- The date input and the grid are rendered only once loading ends; the
  handlers do not require `!loading`, which admits more calls and changes no
  outcome.
