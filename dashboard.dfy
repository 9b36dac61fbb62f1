/**
  The dashboard component's state and handlers. Each React state variable is a
  field; each handler (the mount effect, the events reply, the filter input and
  its effect, row selection, logout) is a method that updates the fields as the
  component's setters do. The network is not modelled: a request that the
  component starts is recorded in a ghost field, and the parsed reply is the
  argument of the method that handles it.
 */
module DashboardView {
  import opened Wrappers
  import opened CalendarEvents

  const AuthorizationCodeKey := "authorization_code"
  const LoginRoute := "/"
  const DashboardRoute := "/dashboard"

  /** What the events request can yield once its body is parsed. */
  datatype EventsReply =
    | EventsOk(events: Option<seq<Event>>, profile: Option<Profile>)   // `success` truthy; `events` None when not an array, `profile` None when absent or null
    | EventsRefused(message: string)                                   // `success` falsy
    | EventsThrew                                                      // fetch, `response.json()` or reading `data` threw

  /** What the logout request can yield once its body is parsed. */
  datatype LogoutReply =
    | LogoutOk
    | LogoutRefused(message: string)
    | LogoutThrew

  class Dashboard {
    var events: seq<Event>
    var filteredEvents: seq<Event>
    var profile: Profile
    var loading: bool
    var fetched: bool
    var filterDate: string
    var selected: Option<Row>
    var location: string
    var storage: map<string, string>

    /** Event requests this mount has started, and whether one is still unanswered. */
    ghost var fetchesStarted: nat
    ghost var fetchPending: bool
    /** Logout requests sent and not yet answered. */
    ghost var logoutsPending: nat

    ghost predicate Valid()
      reads this
    {
      // the grid always shows the current filter applied to the fetched events
      && filteredEvents == VisibleEvents(events, filterDate)
      // the events request starts at most once per mount
      && fetchesStarted == (if fetched then 1 else 0)
      && (fetchPending ==> fetched)
      // the loading indicator is on exactly until the one reply has been handled
      && loading == (!fetched || fetchPending)
      && (loading ==> events == [] && profile == map[])
      && (selected.Some? ==> RowFieldsNonEmpty(selected.value))
      && (logoutsPending > 0 ==> AuthorizationCodeKey !in storage)
    }

    /** Mounting the dashboard at its route with the browser's storage as it is. */
    constructor (initialStorage: map<string, string>)
      ensures Valid()
      ensures events == [] && filteredEvents == [] && profile == map[]
      ensures loading && !fetched && filterDate == [] && selected == None
      ensures location == DashboardRoute && storage == initialStorage
      ensures fetchesStarted == 0 && !fetchPending && logoutsPending == 0
    {
      events, filteredEvents, profile := [], [], map[];
      loading, fetched := true, false;
      filterDate, selected := [], None;
      location, storage := DashboardRoute, initialStorage;
      fetchesStarted, fetchPending, logoutsPending := 0, false, 0;
    }

    /** The mount effect, run on every change of `fetched`: the latch is set
        before the request starts, so only the first run starts one. */
    method RunFetchEffect()
      requires Valid()
      modifies this`fetched, this`fetchesStarted, this`fetchPending
      ensures Valid()
      ensures Latch(fetched, fetchesStarted) == FetchEffect(old(Latch(fetched, fetchesStarted)))
      ensures fetchPending == (old(fetchPending) || !old(fetched))
    {
      if !fetched {
        fetched := true;
        fetchesStarted := fetchesStarted + 1;
        fetchPending := true;
      }
    }

    /** The filter effect, run whenever `filterDate` or `events` changes. */
    method RefreshFilteredEvents()
      modifies this`filteredEvents
      ensures filteredEvents == VisibleEvents(events, filterDate)
    {
      filteredEvents := VisibleEvents(events, filterDate);
    }

    /** The try/catch/finally around the events reply. Every outcome clears
        `loading`; only a refusal navigates; a success stores the events and
        then the profile, except that reading the keys of an absent profile
        throws after the events are stored and leaves the profile as it was. */
    method HandleEventsReply(reply: EventsReply)
      requires Valid() && fetchPending
      modifies this`events, this`filteredEvents, this`profile, this`loading,
               this`location, this`fetchPending
      ensures Valid()
      ensures !loading && !fetchPending
      ensures reply.EventsOk? ==>
                events == (if reply.events.Some? then reply.events.value else [])
      ensures !reply.EventsOk? ==> events == old(events)
      ensures profile == (if reply.EventsOk? && reply.profile.Some? then reply.profile.value
                          else old(profile))
      ensures profile == (if reply.EventsOk? && reply.profile.Some? then reply.profile.value
                          else map[])
      ensures location == (if reply.EventsRefused? then LoginRoute else old(location))
    {
      match reply {
        case EventsOk(data, maybeProfile) =>
          events := if data.Some? then data.value else [];
          if maybeProfile.Some? {
            var p := maybeProfile.value;
            profile := if |p| > 0 then p else map[];
            assert |p| == 0 ==> p == map[];
          }
          RefreshFilteredEvents();
        case EventsRefused(_) =>
          location := LoginRoute;
        case EventsThrew =>
      }
      loading := false;
      fetchPending := false;
    }

    /** The date input's `onChange` and the filter effect it triggers. */
    method SetFilterDate(value: string)
      requires Valid()
      modifies this`filterDate, this`filteredEvents
      ensures Valid()
      ensures filterDate == value
      ensures filteredEvents == VisibleEvents(events, value)
    {
      filterDate := value;
      RefreshFilteredEvents();
    }

    /** Clicking a row's summary: the detail panel shows that row, replacing
        whatever was selected before. */
    method HandleRowClick(row: Row)
      requires Valid()
      requires row in RowsOf(filteredEvents)
      modifies this`selected
      ensures Valid()
      ensures selected == Some(row)
    {
      RowsWellFormed(filteredEvents);
      selected := Some(row);
    }

    /** The detail panel's title is the selected row's own summary: the
        `"No Summary"` fallback never fires for a row taken from the grid. */
    lemma SelectedTitleIsSummary()
      requires Valid() && selected.Some?
      ensures DetailTitle(selected.value) == selected.value.summary
    {
    }

    /** The detail panel's Close button. */
    method CloseDetails()
      requires Valid()
      modifies this`selected
      ensures Valid()
      ensures selected == None
    {
      selected := None;
    }

    /** The first step of logout: the stored authorization code is removed
        before the request is sent. */
    method StartLogout()
      requires Valid()
      modifies this`storage, this`logoutsPending
      ensures Valid()
      ensures storage == old(storage) - {AuthorizationCodeKey}
      ensures AuthorizationCodeKey !in storage
      ensures logoutsPending == old(logoutsPending) + 1
    {
      storage := storage - {AuthorizationCodeKey};
      logoutsPending := logoutsPending + 1;
    }

    /** The logout reply: only `success: true` navigates to the login screen. */
    method HandleLogoutReply(reply: LogoutReply)
      requires Valid() && logoutsPending > 0
      modifies this`location, this`logoutsPending
      ensures Valid()
      ensures location == (if reply.LogoutOk? then LoginRoute else old(location))
      ensures AuthorizationCodeKey !in storage
      ensures logoutsPending == old(logoutsPending) - 1
    {
      if reply.LogoutOk? {
        location := LoginRoute;
      }
      logoutsPending := logoutsPending - 1;
    }
  }
}
