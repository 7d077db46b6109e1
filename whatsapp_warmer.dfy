/** The warmer page (`src/components/pages/WhatsAppWarmer.tsx`): the list of
    warming sessions with its start / pause / resume / stop / delete handlers,
    the set of expanded session cards, the session statistics and the choice
    of target clients. */
module WhatsAppWarmer {
  import opened Seqs
  import opened Text
  import opened Types
  import opened AppStore

  /** The start button is enabled, and a start takes effect, only when a
      source and a target client are both chosen and they differ. */
  predicate CanStart(source: string, target: string)
  {
    source != "" && target != "" && source != target
  }

  /** The session a start creates. */
  function NewSession(id: string, source: string, target: string, duration: int, now: string): WarmerSession
  {
    WarmerSession(id, source, target, Active, now, duration, 0, Some(now))
  }

  /** The id the page gives a new session: the count of existing sessions plus one. */
  function AsWrittenSessionId(sessions: seq<WarmerSession>): string
  {
    NatToString(|sessions| + 1)
  }

  /** With the two sample sessions "1" and "2", deleting "1" and starting a new
      session hands out "2" a second time. */
  lemma AsWrittenSessionIdCollides(first: WarmerSession, second: WarmerSession)
    requires first.id == "1" && second.id == "2"
    ensures var remaining := RemovedById([first, second], SessionKey, "1");
      remaining == [second] && AsWrittenSessionId(remaining) == second.id
  {
    var keep := (e: WarmerSession) => SessionKey(e) != "1";
    assert [first, second][1..] == [second];
    assert [second][1..] == [];
    assert Filter([first, second], keep) == Filter([second], keep);
  }

  /** The largest numeric session id, 0 when there is none. */
  function MaxNumericId(sessions: seq<WarmerSession>): (r: nat)
    ensures forall i :: 0 <= i < |sessions| && AllDigits(sessions[i].id) ==> DigitsValue(sessions[i].id) <= r
  {
    if sessions == [] then 0
    else
      var last := sessions[|sessions| - 1];
      var m := MaxNumericId(sessions[..|sessions| - 1]);
      var v := if AllDigits(last.id) then DigitsValue(last.id) else 0;
      if v > m then v else m
  }

  /** A session id that no existing session carries: one more than the largest
      numeric id. */
  function FreshSessionId(sessions: seq<WarmerSession>): (r: string)
    ensures forall i :: 0 <= i < |sessions| ==> sessions[i].id != r
  {
    var r := NatToString(MaxNumericId(sessions) + 1);
    NatToStringRoundTrip(MaxNumericId(sessions) + 1);
    r
  }

  /** On the sample sessions the corrected id agrees with the page's. */
  lemma FreshSessionIdOnSamples(first: WarmerSession, second: WarmerSession)
    requires first.id == "1" && second.id == "2"
    ensures FreshSessionId([first, second]) == AsWrittenSessionId([first, second]) == "3"
  {
    assert [first, second][..1] == [first];
    assert [first][..0] == [];
    assert AllDigits("1") && AllDigits("2");
    assert DigitsValue("1") == 1 by { assert "1"[..0] == ""; }
    assert DigitsValue("2") == 2 by { assert "2"[..0] == ""; }
    assert MaxNumericId([first]) == 1;
    assert MaxNumericId([first, second]) == 2;
    assert NatToString(3) == "3";
  }

  /** The session controls the card offers for a status. */
  datatype Control = Pause | Resume | Stop

  function Controls(status: SessionStatus): set<Control>
  {
    match status
    case Active => {Pause, Stop}
    case Paused => {Resume, Stop}
    case SessionCompleted => {}
  }

  /** The status a control leaves a session in. */
  function After(c: Control): SessionStatus
  {
    match c
    case Pause => Paused
    case Resume => Active
    case Stop => SessionCompleted
  }

  /** A status change reachable from the page. */
  predicate Reachable(from: SessionStatus, to: SessionStatus)
  {
    exists c :: c in Controls(from) && After(c) == to
  }

  /** Exactly four changes are reachable: active to paused or completed, and
      paused to active or completed; a completed session offers none. */
  lemma Transitions(from: SessionStatus, to: SessionStatus)
    ensures Reachable(from, to) <==>
      (from == Active && to == Paused) || (from == Active && to == SessionCompleted) ||
      (from == Paused && to == Active) || (from == Paused && to == SessionCompleted)
    ensures Controls(SessionCompleted) == {}
  {
    if from == Active && to == Paused { assert Pause in Controls(from); }
    if from == Active && to == SessionCompleted { assert Stop in Controls(from); }
    if from == Paused && to == Active { assert Resume in Controls(from); }
    if from == Paused && to == SessionCompleted { assert Stop in Controls(from); }
  }

  function IsActive(s: WarmerSession): bool { s.status == Active }
  function MessagesSent(s: WarmerSession): int { s.messagesSent }
  function Duration(s: WarmerSession): int { s.duration }

  /** `activeSessions`. */
  function ActiveSessions(sessions: seq<WarmerSession>): (r: nat)
    ensures r <= |sessions|
  {
    |Filter(sessions, IsActive)|
  }

  /** `totalMessages`. */
  function TotalMessages(sessions: seq<WarmerSession>): int
  {
    Sum(sessions, MessagesSent)
  }

  /** `avgDuration`: the mean duration, 0 with no sessions. */
  function AvgDuration(sessions: seq<WarmerSession>): real
  {
    if |sessions| > 0 then Sum(sessions, Duration) as real / |sessions| as real else 0.0
  }

  /** The mean duration lies between any bounds on the durations, and is 0 for
      an empty list. */
  lemma AvgDurationBounds(sessions: seq<WarmerSession>, lo: int, hi: int)
    requires forall i :: 0 <= i < |sessions| ==> lo <= sessions[i].duration <= hi
    ensures sessions == [] ==> AvgDuration(sessions) == 0.0
    ensures sessions != [] ==> lo as real <= AvgDuration(sessions) <= hi as real
  {
    if sessions != [] {
      SumBounds(sessions, Duration, lo, hi);
      QuotientBounds(Sum(sessions, Duration), |sessions|, lo, hi);
    }
  }

  /** Starting a session adds one active session and no sent messages. */
  lemma StartStatistics(sessions: seq<WarmerSession>, s: WarmerSession)
    requires s.status == Active && s.messagesSent == 0
    ensures ActiveSessions(sessions + [s]) == ActiveSessions(sessions) + 1
    ensures TotalMessages(sessions + [s]) == TotalMessages(sessions)
  {
    FilterAppend(sessions, [s], IsActive);
    assert Filter([s], IsActive) == [s];
    SumAppend(sessions, s, MessagesSent);
  }

  function IsConnected(c: Client): bool { c.status == Connected }

  /** The target clients offered once `selected` is the source. */
  function TargetChoices(clients: seq<Client>, selected: string): (r: seq<Client>)
    ensures forall c :: c in r <==> c in clients && c.status == Connected && c.id != selected
    ensures IsSubsequence(r, Filter(clients, IsConnected))
  {
    Filter(Filter(clients, IsConnected), (c: Client) => c.id != selected)
  }

  /** Picking any offered target with a chosen source enables the start. */
  lemma TargetChoiceEnablesStart(clients: seq<Client>, selected: string, c: Client)
    requires selected != "" && c in TargetChoices(clients, selected) && c.id != ""
    ensures CanStart(selected, c.id)
  {
  }

  /** The page's local state. */
  class WarmerPage {
    var sessions: seq<WarmerSession>
    var expandedSessions: set<string>
    var selectedClient: string
    var targetClient: string
    var showCreateDialog: bool

    constructor(mockSessions: seq<WarmerSession>)
      ensures sessions == mockSessions && expandedSessions == {}
      ensures selectedClient == "" && targetClient == "" && !showCreateDialog
    {
      sessions := mockSessions;
      expandedSessions := {};
      selectedClient := "";
      targetClient := "";
      showCreateDialog := false;
    }

    /** `handleStartSession`: `duration` is the parsed duration field and
        `now` the current time. The new session's id is `FreshSessionId`. */
    method StartSession(duration: int, now: string)
      modifies this`sessions, this`showCreateDialog, this`selectedClient, this`targetClient
      ensures CanStart(old(selectedClient), old(targetClient)) ==>
        sessions == old(sessions) + [NewSession(FreshSessionId(old(sessions)), old(selectedClient), old(targetClient), duration, now)] &&
        !showCreateDialog && selectedClient == "" && targetClient == ""
      ensures !CanStart(old(selectedClient), old(targetClient)) ==>
        sessions == old(sessions) && showCreateDialog == old(showCreateDialog) &&
        selectedClient == old(selectedClient) && targetClient == old(targetClient)
    {
      if CanStart(selectedClient, targetClient) {
        var s := NewSession(FreshSessionId(sessions), selectedClient, targetClient, duration, now);
        sessions := sessions + [s];
        showCreateDialog := false;
        selectedClient := "";
        targetClient := "";
      }
    }

    /** `handlePauseSession`. */
    method PauseSession(id: string)
      modifies this`sessions
      ensures sessions == UpdatedById(old(sessions), SessionKey, id, (s: WarmerSession) => s.(status := Paused))
    {
      sessions := UpdatedById(sessions, SessionKey, id, (s: WarmerSession) => s.(status := Paused));
    }

    /** `handleResumeSession`: the session becomes active and its last activity
        is refreshed to `now`. */
    method ResumeSession(id: string, now: string)
      modifies this`sessions
      ensures sessions == UpdatedById(old(sessions), SessionKey, id, (s: WarmerSession) => s.(status := Active, lastActivity := Some(now)))
    {
      sessions := UpdatedById(sessions, SessionKey, id, (s: WarmerSession) => s.(status := Active, lastActivity := Some(now)));
    }

    /** `handleStopSession`. */
    method StopSession(id: string)
      modifies this`sessions
      ensures sessions == UpdatedById(old(sessions), SessionKey, id, (s: WarmerSession) => s.(status := SessionCompleted))
    {
      sessions := UpdatedById(sessions, SessionKey, id, (s: WarmerSession) => s.(status := SessionCompleted));
    }

    /** `handleDeleteSession`: the session leaves the list and its card leaves
        the expanded set. */
    method DeleteSession(id: string)
      modifies this`sessions, this`expandedSessions
      ensures sessions == RemovedById(old(sessions), SessionKey, id)
      ensures expandedSessions == old(expandedSessions) - {id}
    {
      sessions := RemovedById(sessions, SessionKey, id);
      expandedSessions := expandedSessions - {id};
    }

    /** `toggleSessionExpansion`. */
    method ToggleSessionExpansion(id: string)
      modifies this`expandedSessions
      ensures expandedSessions == Toggled(old(expandedSessions), id)
    {
      expandedSessions := Toggled(expandedSessions, id);
    }
  }

  /** A control applied to a session changes only that session's status, to
      the status the control names. */
  lemma ControlEffect(sessions: seq<WarmerSession>, id: string, c: Control, now: string)
    ensures var r := UpdatedById(sessions, SessionKey, id,
        (s: WarmerSession) => if c == Resume then s.(status := Active, lastActivity := Some(now)) else s.(status := After(c)));
      |r| == |sessions| &&
      (forall i :: 0 <= i < |sessions| && sessions[i].id == id ==>
        r[i].status == After(c) && r[i].id == id && r[i].clientId == sessions[i].clientId &&
        r[i].messagesSent == sessions[i].messagesSent) &&
      (forall i :: 0 <= i < |sessions| && sessions[i].id != id ==> r[i] == sessions[i])
  {
  }
}
