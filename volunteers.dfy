/** The volunteer-tracking screen: an in-memory directory searched by free text and narrowed by a
    status tab, a status change that patches both the table and the open detail record, and the
    per-volunteer event list and completed-hours total. */
module Volunteers {
  import opened Wrappers
  import opened Seqs
  import opened Text

  datatype VolunteerStatus = Active | Inactive | Pending

  datatype Volunteer = Volunteer(
    id: int,
    name: string,
    email: string,
    phone: string,
    location: string,
    interests: seq<string>,
    status: VolunteerStatus,
    joinDate: string,
    hours: int,
    skills: string)

  datatype EventStatus = Completed | Upcoming

  datatype VolunteerEvent = VolunteerEvent(
    id: int,
    volunteerId: int,
    eventName: string,
    location: string,
    date: string,
    hours: int,
    status: EventStatus)

  // ---------------------------------------------------------------------------------------
  // Search and status tab
  // ---------------------------------------------------------------------------------------

  /** The free-text search: the lower-cased term is included in the lower-cased name, email,
      location or skills. */
  predicate MatchesSearch(v: Volunteer, term: string) {
    var t := ToLower(term);
    Includes(ToLower(v.name), t) || Includes(ToLower(v.email), t)
    || Includes(ToLower(v.location), t) || Includes(ToLower(v.skills), t)
  }

  /** Reference definition of a search hit, in terms of substring occurrence. */
  ghost predicate SearchHit(v: Volunteer, term: string) {
    var t := ToLower(term);
    Occurs(t, ToLower(v.name)) || Occurs(t, ToLower(v.email))
    || Occurs(t, ToLower(v.location)) || Occurs(t, ToLower(v.skills))
  }

  lemma MatchesSearchIff(v: Volunteer, term: string)
    ensures MatchesSearch(v, term) <==> SearchHit(v, term)
  {
    var t := ToLower(term);
    IncludesIffOccurs(ToLower(v.name), t);
    IncludesIffOccurs(ToLower(v.email), t);
    IncludesIffOccurs(ToLower(v.location), t);
    IncludesIffOccurs(ToLower(v.skills), t);
  }

  /** The status tab: "active", "inactive" and "pending" admit only that status; "all" and any
      other tab value admit every status. */
  predicate TabAdmits(tab: string, s: VolunteerStatus) {
    if tab == "all" then true
    else if tab == "active" then s == Active
    else if tab == "inactive" then s == Inactive
    else if tab == "pending" then s == Pending
    else true
  }

  /** The rows the directory table shows, in list order. */
  function FilterVolunteers(vs: seq<Volunteer>, term: string, tab: string): (rows: seq<Volunteer>)
    ensures |rows| <= |vs|
    ensures forall i :: 0 <= i < |rows| ==> rows[i] in vs
    ensures forall i :: 0 <= i < |rows| ==> MatchesSearch(rows[i], term)
    ensures tab == "active" ==> forall i :: 0 <= i < |rows| ==> rows[i].status == Active
    ensures tab == "inactive" ==> forall i :: 0 <= i < |rows| ==> rows[i].status == Inactive
    ensures tab == "pending" ==> forall i :: 0 <= i < |rows| ==> rows[i].status == Pending
    ensures forall i :: 0 <= i < |vs| ==>
      (MatchesSearch(vs[i], term) && TabAdmits(tab, vs[i].status) ==> vs[i] in rows)
  {
    Filter(vs, (v: Volunteer) => MatchesSearch(v, term) && TabAdmits(tab, v.status))
  }

  /** Every row contains the lower-cased term in one of its four searched fields, and the rows
      keep the list order. */
  lemma FilterVolunteersSpec(vs: seq<Volunteer>, term: string, tab: string)
    ensures IsSubsequence(FilterVolunteers(vs, term, tab), vs)
    ensures forall i :: 0 <= i < |FilterVolunteers(vs, term, tab)| ==>
      SearchHit(FilterVolunteers(vs, term, tab)[i], term)
    ensures forall v :: (multiset(FilterVolunteers(vs, term, tab))[v] ==
      if MatchesSearch(v, term) && TabAdmits(tab, v.status) then multiset(vs)[v] else 0)
  {
    var rows := FilterVolunteers(vs, term, tab);
    FilterIsSubsequence(vs, (v: Volunteer) => MatchesSearch(v, term) && TabAdmits(tab, v.status));
    FilterMultiset(vs, (v: Volunteer) => MatchesSearch(v, term) && TabAdmits(tab, v.status));
    forall i | 0 <= i < |rows|
      ensures SearchHit(rows[i], term)
    {
      MatchesSearchIff(rows[i], term);
    }
  }

  /** Tab "all", or any tab value the code does not recognise, gives exactly the search-only
      filter. */
  lemma FilterVolunteersAllTab(vs: seq<Volunteer>, term: string, tab: string)
    requires tab == "all" || (tab != "active" && tab != "inactive" && tab != "pending")
    ensures FilterVolunteers(vs, term, tab) == Filter(vs, (v: Volunteer) => MatchesSearch(v, term))
  {
    FilterAgreeing(vs, (v: Volunteer) => MatchesSearch(v, term) && TabAdmits(tab, v.status),
                   (v: Volunteer) => MatchesSearch(v, term));
  }

  /** The table is the search result intersected with the status tab: narrowing by the tab
      after searching gives the same rows as the combined filter. */
  lemma FilterVolunteersIsTabOfSearch(vs: seq<Volunteer>, term: string, tab: string)
    ensures FilterVolunteers(vs, term, tab) ==
      Filter(Filter(vs, (v: Volunteer) => MatchesSearch(v, term)),
             (v: Volunteer) => TabAdmits(tab, v.status))
  {
    FilterTwice(vs, (v: Volunteer) => MatchesSearch(v, term),
                (v: Volunteer) => TabAdmits(tab, v.status),
                (v: Volunteer) => MatchesSearch(v, term) && TabAdmits(tab, v.status));
  }

  /** The initial screen (empty search, tab "all") shows the whole list. */
  lemma FilterVolunteersInitial(vs: seq<Volunteer>)
    ensures FilterVolunteers(vs, "", "all") == vs
  {
    forall i | 0 <= i < |vs|
      ensures MatchesSearch(vs[i], "") && TabAdmits("all", vs[i].status)
    {
      IncludesEmpty(ToLower(vs[i].name));
    }
    FilterKeepsAll(vs, (v: Volunteer) => MatchesSearch(v, "") && TabAdmits("all", v.status));
  }

  // ---------------------------------------------------------------------------------------
  // Status update
  // ---------------------------------------------------------------------------------------

  /** The list after a status change: every record with that id gets the new status, and
      nothing else changes. */
  function SetStatusById(vs: seq<Volunteer>, id: int, s: VolunteerStatus): (r: seq<Volunteer>)
    ensures |r| == |vs|
    ensures forall i :: 0 <= i < |vs| && vs[i].id == id ==> r[i] == vs[i].(status := s)
    ensures forall i :: 0 <= i < |vs| && vs[i].id != id ==> r[i] == vs[i]
    decreases |vs|
  {
    if vs == [] then []
    else [if vs[0].id == id then vs[0].(status := s) else vs[0]] + SetStatusById(vs[1..], id, s)
  }

  /** A status change for an id that is not in the list leaves the list as it was. */
  lemma SetStatusUnknownId(vs: seq<Volunteer>, id: int, s: VolunteerStatus)
    requires forall i :: 0 <= i < |vs| ==> vs[i].id != id
    ensures SetStatusById(vs, id, s) == vs
  {
  }

  /** Two status changes for the same id: the last one wins. */
  lemma SetStatusLastWins(vs: seq<Volunteer>, id: int, s: VolunteerStatus, t: VolunteerStatus)
    ensures SetStatusById(SetStatusById(vs, id, s), id, t) == SetStatusById(vs, id, t)
  {
  }

  /** A record taken from the list and patched the same way is still in the patched list, so an
      open detail view stays in step with the table. */
  lemma SetStatusKeepsSelectionInStep(vs: seq<Volunteer>, v: Volunteer, s: VolunteerStatus)
    requires v in vs
    ensures v.(status := s) in SetStatusById(vs, v.id, s)
  {
    var i :| 0 <= i < |vs| && vs[i] == v;
    assert SetStatusById(vs, v.id, s)[i] == v.(status := s);
  }

  // ---------------------------------------------------------------------------------------
  // Events and hours
  // ---------------------------------------------------------------------------------------

  /** The events of one volunteer, in list order. */
  function EventsOf(events: seq<VolunteerEvent>, volunteerId: int): (r: seq<VolunteerEvent>)
    ensures forall i :: 0 <= i < |r| ==> r[i].volunteerId == volunteerId && r[i] in events
    ensures forall i :: 0 <= i < |events| && events[i].volunteerId == volunteerId ==>
      events[i] in r
  {
    Filter(events, (e: VolunteerEvent) => e.volunteerId == volunteerId)
  }

  /** The volunteer's events are a subsequence of all events. */
  lemma EventsOfInOrder(events: seq<VolunteerEvent>, volunteerId: int)
    ensures IsSubsequence(EventsOf(events, volunteerId), events)
  {
    FilterIsSubsequence(events, (e: VolunteerEvent) => e.volunteerId == volunteerId);
  }

  /** The volunteer's event list holds each of that volunteer's events exactly as often as the
      event list does, and no other event. */
  lemma EventsOfMultiplicity(events: seq<VolunteerEvent>, volunteerId: int)
    ensures forall e :: (multiset(EventsOf(events, volunteerId))[e] ==
      if e.volunteerId == volunteerId then multiset(events)[e] else 0)
  {
    FilterMultiset(events, (e: VolunteerEvent) => e.volunteerId == volunteerId);
  }

  /** The positions in the event list that hold events of the volunteer. */
  ghost function PositionsOf(events: seq<VolunteerEvent>, volunteerId: int): set<int> {
    set i | 0 <= i < |events| && events[i].volunteerId == volunteerId
  }

  /** The length of the volunteer's event list, the dialog's event count, is the number of
      positions in the event list that belong to the volunteer. */
  lemma EventsOfCount(events: seq<VolunteerEvent>, volunteerId: int)
    ensures |EventsOf(events, volunteerId)| == |PositionsOf(events, volunteerId)|
  {
    var p := (e: VolunteerEvent) => e.volunteerId == volunteerId;
    FilterLength(events, p);
    assert Passing(events, p) == PositionsOf(events, volunteerId);
  }

  /** The sum of `hours` over a list of events (`reduce` from 0). */
  function SumHours(events: seq<VolunteerEvent>): int
    decreases |events|
  {
    if events == [] then 0 else events[0].hours + SumHours(events[1..])
  }

  lemma {:induction false} SumHoursAppend(a: seq<VolunteerEvent>, b: seq<VolunteerEvent>)
    ensures SumHours(a + b) == SumHours(a) + SumHours(b)
    decreases |a|
  {
    if a == [] {
      assert a + b == b;
    } else {
      assert (a + b)[1..] == a[1..] + b;
      SumHoursAppend(a[1..], b);
    }
  }

  predicate IsCompleted(e: VolunteerEvent) {
    e.status == Completed
  }

  /** `getTotalHours`: the hours of the volunteer's events whose status is Completed. */
  function TotalHours(events: seq<VolunteerEvent>, volunteerId: int): (total: int)
    ensures (forall i :: 0 <= i < |events| && events[i].volunteerId == volunteerId ==>
               events[i].status != Completed) ==> total == 0
  {
    SumHours(Filter(EventsOf(events, volunteerId), IsCompleted))
  }

  /** Reference definition: walk all events once, counting the hours of the volunteer's
      completed ones. */
  function CompletedHoursOf(events: seq<VolunteerEvent>, volunteerId: int): int
    decreases |events|
  {
    if events == [] then 0
    else (if events[0].volunteerId == volunteerId && events[0].status == Completed
          then events[0].hours else 0)
         + CompletedHoursOf(events[1..], volunteerId)
  }

  /** The total is the sum of hours over the volunteer's completed events. */
  lemma {:induction false} TotalHoursIsCompletedHours(events: seq<VolunteerEvent>, volunteerId: int)
    ensures TotalHours(events, volunteerId) == CompletedHoursOf(events, volunteerId)
    decreases |events|
  {
    if events != [] {
      TotalHoursIsCompletedHours(events[1..], volunteerId);
      var e := events[0];
      var mine := (x: VolunteerEvent) => x.volunteerId == volunteerId;
      assert EventsOf(events, volunteerId)
          == (if mine(e) then [e] else []) + EventsOf(events[1..], volunteerId);
      FilterAppend(if mine(e) then [e] else [], EventsOf(events[1..], volunteerId), IsCompleted);
      SumHoursAppend(Filter(if mine(e) then [e] else [], IsCompleted),
                     Filter(EventsOf(events[1..], volunteerId), IsCompleted));
    }
  }

  lemma {:induction false} SumHoursOfFilterAtMost(events: seq<VolunteerEvent>, p: VolunteerEvent -> bool)
    requires forall i :: 0 <= i < |events| ==> events[i].hours >= 0
    ensures SumHours(Filter(events, p)) <= SumHours(events)
    decreases |events|
  {
    if events != [] {
      SumHoursOfFilterAtMost(events[1..], p);
      if p(events[0]) {
        assert Filter(events, p) == [events[0]] + Filter(events[1..], p);
      }
    }
  }

  /** When hours are never negative, the completed total is at most the total over all of the
      volunteer's events. */
  lemma TotalHoursAtMostAllHours(events: seq<VolunteerEvent>, volunteerId: int)
    requires forall i :: 0 <= i < |events| ==> events[i].hours >= 0
    ensures TotalHours(events, volunteerId) <= SumHours(EventsOf(events, volunteerId))
  {
    var mine := EventsOf(events, volunteerId);
    forall i | 0 <= i < |mine|
      ensures mine[i].hours >= 0
    {
      assert mine[i] in events;
    }
    SumHoursOfFilterAtMost(mine, IsCompleted);
  }

  /** Adding events adds their completed hours: the total follows the event list. */
  lemma TotalHoursAppend(a: seq<VolunteerEvent>, b: seq<VolunteerEvent>, volunteerId: int)
    ensures TotalHours(a + b, volunteerId) == TotalHours(a, volunteerId) + TotalHours(b, volunteerId)
  {
    var mine := (x: VolunteerEvent) => x.volunteerId == volunteerId;
    FilterAppend(a, b, mine);
    FilterAppend(EventsOf(a, volunteerId), EventsOf(b, volunteerId), IsCompleted);
    SumHoursAppend(Filter(EventsOf(a, volunteerId), IsCompleted),
                   Filter(EventsOf(b, volunteerId), IsCompleted));
  }

  /** What the detail dialog's statistics panel shows. */
  datatype DetailStats = DetailStats(totalHours: int, eventCount: nat)

  /** The panel shows the record's own `hours` field as the total, and the number of the
      volunteer's events as the count. */
  function ShownStats(selected: Volunteer, events: seq<VolunteerEvent>): (r: DetailStats)
    ensures r.totalHours == selected.hours
    ensures r.eventCount <= |events|
    ensures r.eventCount == |EventsOf(events, selected.id)|
  {
    DetailStats(selected.hours, |EventsOf(events, selected.id)|)
  }

  // ---------------------------------------------------------------------------------------
  // The screen's state
  // ---------------------------------------------------------------------------------------

  /** The directory screen's state slots. The event list is a constant of the screen. */
  class Directory {
    var volunteers: seq<Volunteer>
    var searchTerm: string
    var activeTab: string
    var selected: Option<Volunteer>
    const events: seq<VolunteerEvent>

    /** The screen as first rendered: the given list, an empty search, tab "all", nothing
        selected; every volunteer is visible. */
    constructor (initial: seq<Volunteer>, events: seq<VolunteerEvent>)
      ensures volunteers == initial && searchTerm == "" && activeTab == "all"
      ensures selected == None && this.events == events
      ensures Visible() == initial
    {
      volunteers := initial;
      searchTerm := "";
      activeTab := "all";
      selected := None;
      this.events := events;
      FilterVolunteersInitial(initial);
    }

    /** The rows the table shows. */
    function Visible(): (rows: seq<Volunteer>)
      reads this
      ensures forall i :: 0 <= i < |rows| ==> rows[i] in volunteers
    {
      FilterVolunteers(volunteers, searchTerm, activeTab)
    }

    /** Typing in the search box. */
    method SetSearchTerm(term: string)
      modifies this`searchTerm
      ensures searchTerm == term
    {
      searchTerm := term;
    }

    /** Choosing a status tab. */
    method SetActiveTab(tab: string)
      modifies this`activeTab
      ensures activeTab == tab
    {
      activeTab := tab;
    }

    /** Opening the detail dialog on a row. */
    method ViewDetails(v: Volunteer)
      modifies this`selected
      ensures selected == Some(v)
    {
      selected := Some(v);
    }

    /** Setting a volunteer's status: every record with that id in the list gets the new status;
        the selected record gets it too when, and only when, its id is `id`. */
    method UpdateStatus(id: int, newStatus: VolunteerStatus)
      modifies this`volunteers, this`selected
      ensures volunteers == SetStatusById(old(volunteers), id, newStatus)
      ensures old(selected).Some? && old(selected).value.id == id ==>
        selected == Some(old(selected).value.(status := newStatus))
      ensures old(selected).None? || old(selected).value.id != id ==> selected == old(selected)
      ensures selected.Some? && old(selected).Some? && old(selected).value in old(volunteers) ==>
        selected.value in volunteers
    {
      volunteers := SetStatusById(volunteers, id, newStatus);
      if selected.Some? && selected.value.id == id {
        if selected.value in old(volunteers) {
          SetStatusKeepsSelectionInStep(old(volunteers), selected.value, newStatus);
        }
        selected := Some(selected.value.(status := newStatus));
      }
    }

    /** The statistics panel of the open detail dialog, if one is open. */
    function ShownDetailStats(): (r: Option<DetailStats>)
      reads this
      ensures r.Some? <==> selected.Some?
      ensures r.Some? ==> r.value.eventCount == |EventsOf(events, selected.value.id)|
    {
      if selected.Some? then Some(ShownStats(selected.value, events)) else None
    }
  }
}
