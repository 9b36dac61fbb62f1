/**
  The pure part of the dashboard: calendar-event records as the backend sends
  them, the date filter, the grid rows derived from the filtered events, the
  profile placeholders, and the fetch-once latch as a state transformer.
 */
module CalendarEvents {
  import opened Wrappers

  /** The `start` or `end` object of an event: a timed event carries `dateTime`,
      an all-day event carries `date`. A missing object is When(None, None). */
  datatype When = When(dateTime: Option<string>, date: Option<string>)

  datatype Event = Event(summary: Option<string>, description: Option<string>, start: When, end: When)

  /** A profile as a JSON object: its own keys and their string values. */
  type Profile = map<string, string>

  /** One grid row (and the record shown in the detail panel). */
  datatype Row = Row(id: int, summary: string, start: string, end: string, details: string)

  const NoSummary := "No Summary"
  const NoStartTime := "No Start Time"
  const NoEndTime := "No End Time"
  const NoDetails := "No additional details"
  const NoUserName := "User Name"
  const NoUserEmail := "user@example.com"

  // ---------------------------------------------------------------------------
  // Date filter
  // ---------------------------------------------------------------------------

  /** `field?.startsWith(f)` is truthy: the field is there and begins with `f`. */
  predicate FieldStartsWith(field: Option<string>, f: string)
    ensures FieldStartsWith(field, f) <==>
              field.Some? && |f| <= |field.value| && forall i :: 0 <= i < |f| ==> field.value[i] == f[i]
  {
    field.Some? && f <= field.value
  }

  /** The filter's test for one event: `start.dateTime` or `start.date` has `f` as prefix. */
  predicate StartMatches(e: Event, f: string)
    ensures f != [] && StartMatches(e, f) ==> Present(e.start.dateTime) || Present(e.start.date)
    ensures f == [] ==> (StartMatches(e, f) <==> e.start.dateTime.Some? || e.start.date.Some?)
  {
    FieldStartsWith(e.start.dateTime, f) || FieldStartsWith(e.start.date, f)
  }

  /** `a` is `b` with some elements dropped, the rest kept in their order. */
  ghost predicate IsSubsequence<T>(a: seq<T>, b: seq<T>)
    decreases |b|
  {
    if a == [] then true
    else if b == [] then false
    else (a[0] == b[0] && IsSubsequence(a[1..], b[1..])) || IsSubsequence(a, b[1..])
  }

  /** `events.filter(e => StartMatches(e, f))`: the order-preserving subsequence
      holding every matching occurrence and nothing else. */
  function KeepMatching(es: seq<Event>, f: string): (r: seq<Event>)
    ensures IsSubsequence(r, es)
    ensures forall e :: e in r ==> StartMatches(e, f)
    ensures forall e :: StartMatches(e, f) ==> multiset(r)[e] == multiset(es)[e]
  {
    if es == [] then []
    else
      assert es == [es[0]] + es[1..];
      if StartMatches(es[0], f) then [es[0]] + KeepMatching(es[1..], f)
      else KeepMatching(es[1..], f)
  }

  /** The events the grid shows for filter string `f`: everything when `f` is
      empty, otherwise exactly the events whose start has `f` as prefix. */
  function VisibleEvents(es: seq<Event>, f: string): (r: seq<Event>)
    ensures f == [] ==> r == es
    ensures IsSubsequence(r, es)
    ensures f != [] ==> forall e :: e in r <==> e in es && StartMatches(e, f)
    ensures f != [] ==> forall e :: StartMatches(e, f) ==> multiset(r)[e] == multiset(es)[e]
  {
    if f != [] then
      var r := KeepMatching(es, f);
      assert forall e :: e in r ==> e in es by {
        forall e | e in r ensures e in es {
          assert multiset(r)[e] == multiset(es)[e];
        }
      }
      r
    else
      IsSubsequenceReflexive(es);
      es
  }

  lemma {:induction false} IsSubsequenceReflexive<T>(s: seq<T>)
    ensures IsSubsequence(s, s)
    decreases |s|
  {
    if s != [] {
      IsSubsequenceReflexive(s[1..]);
    }
  }

  lemma {:induction false} SubsequenceMultiset<T>(a: seq<T>, b: seq<T>)
    requires IsSubsequence(a, b)
    ensures multiset(a) <= multiset(b)
    decreases |b|
  {
    if a != [] {
      assert b == [b[0]] + b[1..];
      if a[0] == b[0] && IsSubsequence(a[1..], b[1..]) {
        SubsequenceMultiset(a[1..], b[1..]);
        assert a == [a[0]] + a[1..];
      } else {
        SubsequenceMultiset(a, b[1..]);
      }
    }
  }

  /** The three properties of KeepMatching determine its result: any list that
      is a subsequence of `es`, holds only matching events and every matching
      occurrence is the filtered list. */
  lemma {:induction false} KeepMatchingUnique(es: seq<Event>, f: string, r: seq<Event>)
    requires IsSubsequence(r, es)
    requires forall e :: e in r ==> StartMatches(e, f)
    requires forall e :: StartMatches(e, f) ==> multiset(r)[e] == multiset(es)[e]
    ensures r == KeepMatching(es, f)
    decreases |es|
  {
    if es == [] {
      assert r == [];
    } else {
      var h, t := es[0], es[1..];
      assert es == [h] + t;
      if StartMatches(h, f) {
        assert multiset(r)[h] == multiset(es)[h] > 0;
        assert r != [];
        if r[0] == h && IsSubsequence(r[1..], t) {
          assert r == [h] + r[1..];
          forall e | StartMatches(e, f)
            ensures multiset(r[1..])[e] == multiset(t)[e]
          {
            assert multiset(r)[e] == multiset(es)[e];
          }
          KeepMatchingUnique(t, f, r[1..]);
        } else {
          assert IsSubsequence(r, t);
          SubsequenceMultiset(r, t);
          assert false;
        }
      } else {
        assert r != [] ==> r[0] != h by {
          if r != [] { assert r[0] in r; }
        }
        assert IsSubsequence(r, t);
        forall e | StartMatches(e, f)
          ensures multiset(r)[e] == multiset(t)[e]
        {
          assert e != h;
          assert multiset(r)[e] == multiset(es)[e];
        }
        KeepMatchingUnique(t, f, r);
      }
    }
  }

  /** Filtering an already filtered list with the same string changes nothing. */
  lemma {:induction false} VisibleEventsIdempotent(es: seq<Event>, f: string)
    ensures VisibleEvents(VisibleEvents(es, f), f) == VisibleEvents(es, f)
  {
    if f != [] {
      var r := KeepMatching(es, f);
      IsSubsequenceReflexive(r);
      KeepMatchingUnique(r, f, r);
    }
  }

  /** With a non-empty filter, an event with neither `start.dateTime` nor
      `start.date` is never shown. */
  lemma EventWithoutStartHidden(es: seq<Event>, f: string, e: Event)
    requires f != []
    requires e.start == When(None, None)
    ensures e !in VisibleEvents(es, f)
  {
  }

  // ---------------------------------------------------------------------------
  // Grid rows
  // ---------------------------------------------------------------------------

  /** A JavaScript string value that is truthy: present and not "". */
  predicate Present(v: Option<string>)
    ensures Present(v) <==> v != None && v != Some("")
  {
    v.Some? && v.value != []
  }

  /** JavaScript `v || fallback` for a string-or-undefined `v`. */
  function OrElse(v: Option<string>, fallback: string): (r: string)
    ensures Present(v) ==> r == v.value
    ensures !Present(v) ==> r == fallback
    ensures fallback != [] ==> r != []
  {
    if Present(v) then v.value else fallback
  }

  /** `w?.dateTime || w?.date || placeholder` */
  function DisplayTime(w: When, placeholder: string): (r: string)
    ensures Present(w.dateTime) ==> r == w.dateTime.value
    ensures !Present(w.dateTime) && Present(w.date) ==> r == w.date.value
    ensures !Present(w.dateTime) && !Present(w.date) ==> r == placeholder
  {
    OrElse(w.dateTime, OrElse(w.date, placeholder))
  }

  predicate RowFieldsNonEmpty(row: Row) {
    row.summary != [] && row.start != [] && row.end != [] && row.details != []
  }

  /** The row built for one event: each field is the event's value when that is
      a non-empty string and a fixed placeholder otherwise. */
  function ToRow(e: Event, id: int): (r: Row)
    ensures r.id == id
    ensures RowFieldsNonEmpty(r)
    ensures r.start == DisplayTime(e.start, NoStartTime)
    ensures r.end == DisplayTime(e.end, NoEndTime)
    ensures r.summary == if Present(e.summary) then e.summary.value else NoSummary
    ensures r.details == if Present(e.description) then e.description.value else NoDetails
  {
    Row(id,
        OrElse(e.summary, NoSummary),
        DisplayTime(e.start, NoStartTime),
        DisplayTime(e.end, NoEndTime),
        OrElse(e.description, NoDetails))
  }

  /** `filteredEvents.map((event, index) => ...)`: one row per visible event, in
      order; row k is built from event k and carries id k + 1. */
  function RowsOf(fs: seq<Event>): (rows: seq<Row>)
    ensures |rows| == |fs|
    ensures forall k :: 0 <= k < |rows| ==> rows[k] == ToRow(fs[k], k + 1)
  {
    seq(|fs|, k requires 0 <= k < |fs| => ToRow(fs[k], k + 1))
  }

  /** Row ids are exactly 1..n, pairwise distinct, and every row field is non-empty. */
  lemma RowsWellFormed(fs: seq<Event>)
    ensures forall k :: 0 <= k < |fs| ==> RowsOf(fs)[k].id == k + 1
    ensures forall j, k :: 0 <= j < k < |fs| ==> RowsOf(fs)[j].id != RowsOf(fs)[k].id
    ensures forall row :: row in RowsOf(fs) ==> RowFieldsNonEmpty(row) && 1 <= row.id <= |fs|
  {
  }

  /** Row ids are positional, not stable: the same event gets id 2 in the
      unfiltered grid and id 1 once a filter drops the event before it. */
  lemma RowIdsFollowFilter()
    ensures
      var a := Event(Some("Standup"), None, When(Some("2024-05-01T10:00:00Z"), None), When(None, None));
      var b := Event(Some("Holiday"), None, When(None, Some("2024-05-02")), When(None, None));
      && RowsOf(VisibleEvents([a, b], ""))[1] == ToRow(b, 2)
      && RowsOf(VisibleEvents([a, b], "2024-05-02")) == [ToRow(b, 1)]
  {
    var a := Event(Some("Standup"), None, When(Some("2024-05-01T10:00:00Z"), None), When(None, None));
    var b := Event(Some("Holiday"), None, When(None, Some("2024-05-02")), When(None, None));
    assert !StartMatches(a, "2024-05-02") by {
      assert "2024-05-02"[9] != "2024-05-01T10:00:00Z"[9];
    }
    assert StartMatches(b, "2024-05-02");
    assert KeepMatching([a, b], "2024-05-02") == [b] by {
      assert [a, b][1..] == [b];
      assert [b][1..] == [];
    }
  }

  /** When an event carries exactly one non-empty start field (as the calendar
      service sends them), the filter tests the same string the grid shows. */
  lemma FilterMatchesDisplayedStart(e: Event, f: string)
    requires f != []
    requires Present(e.start.dateTime) != Present(e.start.date)
    ensures StartMatches(e, f) <==> f <= ToRow(e, 0).start
  {
  }

  /** Without that condition the filter and the shown start can disagree: an
      event with both fields is kept on a `date` match while its row shows the
      `dateTime`, and an event without a start shows "No Start Time" yet a
      filter "No" hides it. */
  lemma FilterCanDisagreeWithDisplayedStart()
    ensures
      var both := Event(None, None, When(Some("2024-05-01T10:00:00Z"), Some("2024-05-02")), When(None, None));
      StartMatches(both, "2024-05-02") && !("2024-05-02" <= ToRow(both, 1).start)
    ensures
      var none := Event(None, None, When(None, None), When(None, None));
      !StartMatches(none, "No") && "No" <= ToRow(none, 1).start
  {
    assert "2024-05-02"[9] != "2024-05-01T10:00:00Z"[9];
    assert "No" == NoStartTime[..2];
  }

  // ---------------------------------------------------------------------------
  // Profile placeholders
  // ---------------------------------------------------------------------------

  /** `profile.name || "User Name"` */
  function DisplayName(p: Profile): (r: string)
    ensures r != []
    ensures r == if "name" in p && p["name"] != [] then p["name"] else NoUserName
  {
    OrElse(Get(p, "name"), NoUserName)
  }

  /** `profile.email || "user@example.com"` */
  function DisplayEmail(p: Profile): (r: string)
    ensures r != []
    ensures r == if "email" in p && p["email"] != [] then p["email"] else NoUserEmail
  {
    OrElse(Get(p, "email"), NoUserEmail)
  }

  /** The detail panel's title `selectedEvent.summary || "No Summary"`. */
  function DetailTitle(row: Row): (r: string)
    ensures row.summary != [] ==> r == row.summary
    ensures row.summary == [] ==> r == NoSummary
  {
    OrElse(Some(row.summary), NoSummary)
  }

  // ---------------------------------------------------------------------------
  // Fetch-once latch
  // ---------------------------------------------------------------------------

  /** The `fetched` flag and the number of event fetches started so far. */
  datatype Latch = Latch(fetched: bool, started: nat)

  /** One run of the mount effect: `if (!fetched) { setFetched(true); fetchEvents(); }` */
  function FetchEffect(s: Latch): (t: Latch)
    ensures t.fetched
    ensures t.started == if s.fetched then s.started else s.started + 1
  {
    if !s.fetched then Latch(true, s.started + 1) else s
  }

  /** `n` consecutive runs of the mount effect. */
  function Rerun(s: Latch, n: nat): Latch
    decreases n
  {
    if n == 0 then s else Rerun(FetchEffect(s), n - 1)
  }

  lemma {:induction false} RerunAfterFetchChangesNothing(k: nat, n: nat)
    ensures Rerun(Latch(true, k), n) == Latch(true, k)
    decreases n
  {
    if n > 0 {
      RerunAfterFetchChangesNothing(k, n - 1);
    }
  }

  /** However often the effect runs after mount, exactly one fetch starts. */
  lemma {:induction false} RerunsStartOneFetch(n: nat)
    requires n >= 1
    ensures Rerun(Latch(false, 0), n) == Latch(true, 1)
  {
    RerunAfterFetchChangesNothing(1, n - 1);
  }
}
