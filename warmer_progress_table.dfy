/** The expanded card of one warming session
    (`src/components/ui/warmer-progress-table.tsx`): its message log, grown by
    a timer while the session is active and capped at 100 entries, the
    elapsed-time statistics, the 20-row table window and the delete action.
    The timer's random draws and the clock are parameters. */
module WarmerProgressTable {
  import opened Seqs
  import opened Types

  datatype Direction = Sent | Received

  datatype WarmerMessage = WarmerMessage(
    id: string,
    from: string,
    to: string,
    message: string,
    timestamp: string,
    direction: Direction)

  /** The most entries the log keeps. */
  const LogCapacity: nat := 100

  /** The most entries the table shows. */
  const DisplayRows: nat := 20

  /** The ten small-talk lines the simulated conversation draws from. */
  const Phrases: seq<string> := [
    "Hey, how's your day going?",
    "Just checking in! How are things?",
    "Hope you're having a great day! \U{1F60A}",
    "What's new with you?",
    "Thinking of you! How are you doing?",
    "Good morning! Hope your day starts well!",
    "Any exciting plans for today?",
    "Hope you're doing well! \U{1F44B}",
    "Just wanted to say hi!",
    "How's everything going on your end?"
  ]

  /** `[m, ...log].slice(0, 100)`: the newest entry first, the oldest dropped
      once the log is full. */
  function PrependCapped(m: WarmerMessage, log: seq<WarmerMessage>): (r: seq<WarmerMessage>)
    ensures |r| <= LogCapacity
    ensures |r| == if |log| + 1 <= LogCapacity then |log| + 1 else LogCapacity
    ensures r[0] == m
    ensures r[1..] == log[..|r| - 1]
  {
    Take([m] + log, LogCapacity)
  }

  /** The message the timer generates: `fromClient` is the coin deciding who speaks. */
  function NewMessage(clientId: string, targetClientId: string, fromClient: bool,
                      phrase: nat, id: string, timestamp: string): WarmerMessage
    requires phrase < |Phrases|
  {
    WarmerMessage(
      id,
      if fromClient then clientId else targetClientId,
      if fromClient then targetClientId else clientId,
      Phrases[phrase],
      timestamp,
      if fromClient then Sent else Received)
  }

  /** A generated message goes between the session's two clients, one way or
      the other, and it counts as sent exactly when the source client speaks. */
  lemma NewMessageEndpoints(clientId: string, targetClientId: string, fromClient: bool,
                            phrase: nat, id: string, timestamp: string)
    requires phrase < |Phrases|
    requires clientId != targetClientId
    ensures var m := NewMessage(clientId, targetClientId, fromClient, phrase, id, timestamp);
      {m.from, m.to} == {clientId, targetClientId} && m.from != m.to &&
      (m.direction == Sent <==> m.from == clientId) && m.message in Phrases
  {
  }

  /** `elapsedMinutes`: whole minutes between the start and `now`, both in
      milliseconds, rounded down. */
  function ElapsedMinutes(now: int, startedAt: int): (r: int)
    ensures 60000 * r <= now - startedAt < 60000 * (r + 1)
  {
    (now - startedAt) / 60000
  }

  /** `progressPercentage`, `Math.min(elapsed / duration * 100, 100)`. `None`
      stands for the non-numbers the division gives with a zero duration and no
      elapsed time (NaN, or -Infinity before the start). */
  function ProgressPercentage(elapsed: int, duration: int): (r: Option<real>)
    ensures r.None? <==> duration == 0 && elapsed <= 0
    ensures r.Some? ==> r.value <= 100.0
    ensures duration > 0 && elapsed >= 0 ==> r.Some? && 0.0 <= r.value
    ensures duration > 0 && elapsed >= duration ==> r == Some(100.0)
  {
    if duration == 0 then
      (if elapsed > 0 then Some(100.0) else None)
    else
      var p := elapsed as real / duration as real * 100.0;
      Some(if p < 100.0 then p else 100.0)
  }

  /** `messagesPerHour`: the rounded hourly rate, 0 before a full minute. */
  function MessagesPerHour(count: int, elapsed: int): (r: int)
    ensures elapsed <= 0 ==> r == 0
    ensures elapsed > 0 ==> 2 * elapsed * r - elapsed <= 120 * count < 2 * elapsed * r + elapsed
  {
    if elapsed > 0 then RoundDiv(60 * count, elapsed) else 0
  }

  /** A non-negative count gives a non-negative rate. */
  lemma MessagesPerHourNonNegative(count: int, elapsed: int)
    requires count >= 0
    ensures MessagesPerHour(count, elapsed) >= 0
  {
    if elapsed > 0 {
      var r := MessagesPerHour(count, elapsed);
      assert 0 <= 120 * count < 2 * elapsed * r + elapsed;
      assert elapsed * (2 * r + 1) > 0;
      PositiveProduct(elapsed, 2 * r + 1);
    }
  }

  /** The rows of the table: the newest 20 entries. */
  function DisplayWindow(log: seq<WarmerMessage>): (r: seq<WarmerMessage>)
    ensures |r| <= DisplayRows && |r| <= |log|
    ensures log == r + log[|r|..]
  {
    Take(log, DisplayRows)
  }

  /** The "Showing 20 of N" note. */
  predicate ShowsOverflowNote(log: seq<WarmerMessage>)
  {
    |log| > DisplayRows
  }

  /** The note appears exactly when the table leaves entries out. */
  lemma OverflowNoteIffTruncated(log: seq<WarmerMessage>)
    ensures ShowsOverflowNote(log) <==> |DisplayWindow(log)| < |log|
  {
  }

  class ProgressTable {
    const sessionId: string
    const clientId: string
    const targetClientId: string
    const status: SessionStatus
    const duration: int
    var currentMessages: seq<WarmerMessage>
    var currentMessageCount: int
    var showDeleteDialog: bool

    constructor(sessionId: string, clientId: string, targetClientId: string, status: SessionStatus,
                duration: int, messagesSent: int, messages: seq<WarmerMessage>)
      ensures this.sessionId == sessionId && this.clientId == clientId
      ensures this.targetClientId == targetClientId && this.status == status && this.duration == duration
      ensures currentMessages == messages && currentMessageCount == messagesSent && !showDeleteDialog
    {
      this.sessionId := sessionId;
      this.clientId := clientId;
      this.targetClientId := targetClientId;
      this.status := status;
      this.duration := duration;
      currentMessages := messages;
      currentMessageCount := messagesSent;
      showDeleteDialog := false;
    }

    /** One timer tick. The timer runs only for an active session; `fires` is
        the draw deciding whether a message is added, `fromClient` who speaks
        and `phrase` which line is said. */
    method Tick(fires: bool, fromClient: bool, phrase: nat, id: string, timestamp: string)
      requires phrase < |Phrases|
      modifies this`currentMessages, this`currentMessageCount
      ensures status == Active && fires ==>
        currentMessages == PrependCapped(NewMessage(clientId, targetClientId, fromClient, phrase, id, timestamp), old(currentMessages)) &&
        currentMessageCount == old(currentMessageCount) + 1
      ensures !(status == Active && fires) ==>
        currentMessages == old(currentMessages) && currentMessageCount == old(currentMessageCount)
      ensures |old(currentMessages)| <= LogCapacity ==> |currentMessages| <= LogCapacity
    {
      if status == Active && fires {
        var m := NewMessage(clientId, targetClientId, fromClient, phrase, id, timestamp);
        currentMessages := PrependCapped(m, currentMessages);
        currentMessageCount := currentMessageCount + 1;
      }
    }

    /** `handleDelete`: reports this card's session id to the optional
        `onDelete` callback (the result, `None` when there is none) and closes
        the confirmation dialog. */
    method HandleDelete(hasOnDelete: bool) returns (deleted: Option<string>)
      modifies this`showDeleteDialog
      ensures deleted == (if hasOnDelete then Some(sessionId) else None)
      ensures !showDeleteDialog
    {
      deleted := if hasOnDelete then Some(sessionId) else None;
      showDeleteDialog := false;
    }
  }
}
