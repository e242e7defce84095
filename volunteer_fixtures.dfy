/** The screen's sample data, used only to state examples about the model. */
module VolunteerFixtures {
  import opened Volunteers

  const ANIL := Volunteer(1, "Anil Kumar", "anil.kumar@example.com", "+91 98765 43210", "Raipur",
                          ["Education", "Community Development"], Active, "2025-01-15", 48,
                          "Teaching, Coordination")

  const SAMPLE_EVENTS: seq<VolunteerEvent> := [
    VolunteerEvent(1, 1, "Digital Literacy Workshop", "Raipur", "2025-03-15", 8, Completed),
    VolunteerEvent(2, 1, "Community Health Camp", "Dhamtari", "2025-02-20", 6, Completed),
    VolunteerEvent(3, 2, "Women Empowerment Seminar", "Bhilai", "2025-03-08", 4, Completed),
    VolunteerEvent(4, 3, "Organic Farming Training", "Durg", "2025-01-25", 8, Completed),
    VolunteerEvent(5, 4, "School Supply Distribution", "Korba", "2025-04-10", 6, Upcoming),
    VolunteerEvent(6, 5, "Sports Day for Rural Youth", "Bilaspur", "2025-03-20", 8, Completed)
  ]

  /** On the sample data the first volunteer has two events and 8 + 6 completed hours, while
      the detail dialog shows the record's own 48 hours: the shown total is not the derived one. */
  lemma ShownHoursDifferFromCompletedHours()
    ensures |EventsOf(SAMPLE_EVENTS, ANIL.id)| == 2
    ensures TotalHours(SAMPLE_EVENTS, ANIL.id) == 14
    ensures ShownStats(ANIL, SAMPLE_EVENTS).totalHours == 48
    ensures ShownStats(ANIL, SAMPLE_EVENTS).eventCount == 2
  {
    TotalHoursIsCompletedHours(SAMPLE_EVENTS, ANIL.id);
    assert CompletedHoursOf(SAMPLE_EVENTS, ANIL.id) == 14;
  }
}
