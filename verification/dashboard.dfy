/** The sessions dashboard: the three status tabs, the type badge, the
    notes line and the one action each session card offers. */
module Dashboard {
  import opened Wrappers
  import opened Types
  import Seqs

  /** The test a status tab filters by. */
  function StatusIs(st: SessionStatus): Session -> bool {
    (s: Session) => s.status == st
  }

  /** The sessions with status `st`, in their booked order. */
  function WithStatus(sessions: seq<Session>, st: SessionStatus): (r: seq<Session>)
    ensures Seqs.IsSubsequence(r, sessions)
    ensures forall i :: 0 <= i < |r| ==> r[i].status == st
    ensures forall i :: 0 <= i < |sessions| && sessions[i].status == st ==> sessions[i] in r
  {
    Seqs.Filter(sessions, StatusIs(st))
  }

  /** The upcoming, active and completed tabs together hold every session
      exactly as often as the list does. */
  lemma Partition(sessions: seq<Session>)
    ensures |WithStatus(sessions, Upcoming)| + |WithStatus(sessions, Active)|
      + |WithStatus(sessions, Completed)| == |sessions|
    ensures multiset(WithStatus(sessions, Upcoming)) + multiset(WithStatus(sessions, Active))
      + multiset(WithStatus(sessions, Completed)) == multiset(sessions)
  {
    Seqs.FilterPartition(sessions, StatusIs(Upcoming), StatusIs(Active), StatusIs(Completed));
    var u, a, c := WithStatus(sessions, Upcoming), WithStatus(sessions, Active), WithStatus(sessions, Completed);
    assert |multiset(u) + multiset(a) + multiset(c)| == |u| + |a| + |c|;
  }

  /** A session appears in its own status tab and in no other. */
  lemma OneTabEach(sessions: seq<Session>, i: nat)
    requires i < |sessions|
    ensures sessions[i] in WithStatus(sessions, sessions[i].status)
    ensures forall st :: st != sessions[i].status ==> sessions[i] !in WithStatus(sessions, st)
  {
  }

  /** A session added at the end of the list lands at the end of its own
      tab and leaves the other two tabs as they were. */
  lemma AppendLandsLast(sessions: seq<Session>, n: Session)
    ensures WithStatus(sessions + [n], n.status) == WithStatus(sessions, n.status) + [n]
    ensures forall st :: st != n.status ==> WithStatus(sessions + [n], st) == WithStatus(sessions, st)
  {
    forall st
      ensures WithStatus(sessions + [n], st) == WithStatus(sessions, st) + (if n.status == st then [n] else [])
    {
      Seqs.FilterAppend(sessions, [n], StatusIs(st));
      assert Seqs.Filter([n], StatusIs(st)) == (if n.status == st then [n] else []);
    }
  }

  /** The badge colour of each session type. */
  function TypeColor(t: SessionType): string {
    match t
    case Debugging => "bg-blue-500"
    case Career => "bg-green-500"
    case Existential => "bg-purple-500"
  }

  /** The badge text of each session type. */
  function TypeLabel(t: SessionType): string {
    match t
    case Debugging => "Debug"
    case Career => "Career"
    case Existential => "Support"
  }

  /** Badges tell the three types apart, by colour and by text. */
  lemma BadgesDistinct(a: SessionType, b: SessionType)
    requires a != b
    ensures TypeColor(a) != TypeColor(b) && TypeLabel(a) != TypeLabel(b)
  {
  }

  /** The card's button: its caption and whether pressing it calls the
      join handler (the other two buttons have no handler). */
  datatype Action = Action(caption: string, joins: bool)

  function ActionFor(st: SessionStatus): (a: Action)
    ensures a.joins <==> st == Upcoming
  {
    match st
    case Upcoming => Action("Join Session", true)
    case Active => Action("End Session", false)
    case Completed => Action("View Details", false)
  }

  /** Each status has a caption of its own: "Join Session", "End Session"
      and "View Details". */
  lemma ActionCaptionsDistinct(a: SessionStatus, b: SessionStatus)
    requires a != b
    ensures ActionFor(a).caption != ActionFor(b).caption
  {
  }

  /** The notes line: shown exactly when the session has non-empty notes. */
  function NotesShown(s: Session): (r: Option<string>)
    ensures r.Some? <==> s.notes.Some? && s.notes.value != ""
    ensures r.Some? ==> r.value == s.notes.value
  {
    if s.notes.Some? && s.notes.value != "" then s.notes else None
  }
}
