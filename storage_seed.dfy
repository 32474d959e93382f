/**
 * The records written on first run when a collection is absent: one admin
 * and two students, five events in mixed states, and one active election
 * with three candidates. `now` is the clock reading at start-up.
 */
module StorageSeed {
  import opened Wrappers
  import opened StorageTypes

  const DAY_MS: nat := 24 * 60 * 60 * 1000

  function DefaultUsers(now: int): (us: seq<User>)
    ensures |us| == 3
    ensures forall i, j | 0 <= i < j < |us| :: us[i].id != us[j].id && us[i].email != us[j].email
  {
    [ User("u_admin", "Admin User", "admin@fitmat.edu", "ADMIN001", Admin, 10000.0, 25, true, now),
      User("u_student1", "Jane Doe", "jane@fitmat.edu", "S12345", Student, 1500.0, 20, true, now),
      User("u_student2", "John Smith", "john@fitmat.edu", "S12346", Student, 2000.0, 21, true, now) ]
  }

  function DefaultEvents(now: int): (es: seq<Event>)
    ensures |es| == 5
    ensures forall i, j | 0 <= i < j < |es| :: es[i].id != es[j].id
    ensures forall i | 0 <= i < |es| :: es[i].odds.home > 1.0 && es[i].odds.draw > 1.0 && es[i].odds.away > 1.0
  {
    [ Event("m_001", "Inter-FITMAT Cup", "Blue Falcons", "Red Lions",
            now + 2 * DAY_MS, EventStatus.Upcoming, Odds(1.75, 3.25, 4.2), None),
      Event("m_002", "Basketball Championship", "Thunder Hawks", "Storm Eagles",
            now + 3 * DAY_MS, EventStatus.Upcoming, Odds(2.1, 15.0, 1.8), None),
      Event("m_003", "Volleyball Tournament", "Fire Phoenixes", "Ice Dragons",
            now + 1 * DAY_MS, Live, Odds(1.9, 10.0, 2.2), Some(Score(2, 1))),
      Event("m_004", "Track & Field", "Swift Cheetahs", "Fast Leopards",
            now - DAY_MS, Finished, Odds(1.5, 8.0, 3.5), Some(Score(5, 3))),
      Event("m_005", "Tennis Open", "Net Masters", "Court Kings",
            now + 5 * DAY_MS, EventStatus.Upcoming, Odds(2.5, 20.0, 1.6), None) ]
  }

  const MANIFESTO_C1: string := "I will work to improve student welfare, promote inclusivity, and create more opportunities for extracurricular activities."
  const MANIFESTO_C2: string := "My focus is on academic excellence, better facilities, and stronger communication between students and administration."
  const MANIFESTO_C3: string := "I promise to enhance campus security, organize more social events, and support mental health initiatives."

  function DefaultCandidates(): seq<Candidate> {
    [ Candidate("c1", "Amina Hassan", MANIFESTO_C1, "\U{1F469}\U{200D}\U{1F393}", None, Some(1)),
      Candidate("c2", "Baba Mensah", MANIFESTO_C2, "\U{1F468}\U{200D}\U{1F393}", None, Some(2)),
      Candidate("c3", "Chioma Okafor", MANIFESTO_C3, "\U{1F469}\U{200D}\U{1F4BC}", None, Some(3)) ]
  }

  function DefaultElections(now: int): seq<Election> {
    [ Election("e_001", "School Prefect Election 2026", DefaultCandidates(),
               now - DAY_MS, now + 7 * DAY_MS,
               ElectionStatus.Active, "all_students") ]
  }
}
