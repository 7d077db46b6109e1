/** The client page (`src/components/pages/ClientManagement.tsx`): the search,
    the rating stars, connecting (the QR dialog) and disconnecting a client,
    the statistic cards and the action each client row offers. */
module ClientManagement {
  import opened Seqs
  import opened Text
  import opened Types
  import opened AppStore

  /** Name or phone number contains the term, both ignoring case. */
  predicate MatchesSearch(c: Client, term: string)
  {
    IncludesIgnoringCase(c.name, term) || IncludesIgnoringCase(c.phoneNumber, term)
  }

  /** `filteredClients`. */
  function FilteredClients(clients: seq<Client>, term: string): (r: seq<Client>)
    ensures forall c :: c in r <==> c in clients && MatchesSearch(c, term)
    ensures IsSubsequence(r, clients)
  {
    Filter(clients, (c: Client) => MatchesSearch(c, term))
  }

  /** An empty search lists every client, in order. */
  lemma EmptySearchListsAll(clients: seq<Client>)
    ensures FilteredClients(clients, "") == clients
  {
    forall c | c in clients
      ensures MatchesSearch(c, "")
    {
      IncludesIgnoringCaseLaws(c.name, "");
    }
    FilterAll(clients, (c: Client) => MatchesSearch(c, ""));
  }

  const StarSlots: nat := 5

  /** `Math.round(rating / 20)`: a 0 to 100 rating on a five-star scale. */
  function StarCount(rating: int): (r: int)
    ensures 0 <= rating <= 100 ==> 0 <= r <= StarSlots
  {
    RoundDiv(rating, 20)
  }

  /** Which of the five stars are filled. */
  function Stars(rating: int): (r: seq<bool>)
    ensures |r| == StarSlots
  {
    seq(StarSlots, i => i < StarCount(rating))
  }

  /** A higher rating never shows fewer stars. */
  lemma StarCountMonotone(a: int, b: int)
    requires a <= b
    ensures StarCount(a) <= StarCount(b)
  {
    var x := StarCount(a);
    var y := StarCount(b);
    assert 40 * x - 20 <= 2 * a && 2 * b < 40 * y + 20;
  }

  /** The filled stars come first: as many as the count, clamped to 0 to 5,
      and the rest are empty. */
  lemma StarsLayout(rating: int)
    ensures var k := if StarCount(rating) < 0 then 0
                     else if StarCount(rating) > StarSlots then StarSlots else StarCount(rating);
      forall i :: 0 <= i < StarSlots ==> (Stars(rating)[i] <==> i < k)
  {
  }

  /** Half a star rounds up: 90 shows five stars, 89 four, 10 one and 9 none. */
  lemma StarRounding()
    ensures StarCount(90) == 5 && StarCount(89) == 4
    ensures StarCount(10) == 1 && StarCount(9) == 0
  {
  }

  predicate IsConnected(c: Client)
  {
    c.status == Connected
  }

  function SentTodayOf(c: Client): int { c.sentToday }
  function DailyLimitOf(c: Client): int { c.dailyLimit }

  /** `connectedCount`. */
  function ConnectedCount(clients: seq<Client>): (r: nat)
    ensures r <= |clients|
  {
    |Filter(clients, IsConnected)|
  }

  function TotalSentToday(clients: seq<Client>): int
  {
    Sum(clients, SentTodayOf)
  }

  function TotalDailyLimit(clients: seq<Client>): int
  {
    Sum(clients, DailyLimitOf)
  }

  /** When no client has passed its own limit, the page's total sent stays
      within the total limit. */
  lemma TotalsWithinLimit(clients: seq<Client>)
    requires forall c :: c in clients ==> c.sentToday <= c.dailyLimit
    ensures TotalSentToday(clients) <= TotalDailyLimit(clients)
  {
    SumMonotone(clients, SentTodayOf, DailyLimitOf);
  }

  /** The status a disconnect leaves behind. */
  function AfterDisconnect(clients: seq<Client>, id: string): seq<Client>
  {
    UpdatedById(clients, ClientKey, id, (c: Client) => MergeClient(c, ClientStatusPatch(Disconnected)))
  }

  /** Disconnecting keeps both totals and leaves connected exactly the
      clients that were connected under another id, so the connected count
      drops by the number of connected clients with that id (by one when
      exactly one has it). */
  lemma DisconnectAggregates(clients: seq<Client>, id: string)
    ensures var after := AfterDisconnect(clients, id);
      ConnectedCount(after) <= ConnectedCount(clients) &&
      TotalSentToday(after) == TotalSentToday(clients) &&
      TotalDailyLimit(after) == TotalDailyLimit(clients)
    ensures var after := AfterDisconnect(clients, id);
      Filter(after, IsConnected) == Filter(clients, (c: Client) => IsConnected(c) && c.id != id) &&
      ConnectedCount(after) + |Filter(clients, (c: Client) => IsConnected(c) && c.id == id)| ==
        ConnectedCount(clients)
  {
    var after := AfterDisconnect(clients, id);
    UpdateClientStatus(clients, id, Disconnected);
    FilterPointwiseDrop(clients, after, IsConnected, (c: Client) => c.id != id,
                        (c: Client) => IsConnected(c) && c.id != id,
                        (c: Client) => IsConnected(c) && c.id == id);
    SumPointwise(clients, after, SentTodayOf);
    SumPointwise(clients, after, DailyLimitOf);
  }

  /** The button a client row offers. */
  datatype Action = Disconnect | ShowQr | Connect

  function ActionFor(status: ClientStatus): (r: Action)
    ensures r == Disconnect <==> status == Connected
    ensures r == ShowQr <==> status == Scanning
  {
    match status
    case Connected => Disconnect
    case Scanning => ShowQr
    case _ => Connect
  }

  class ClientPage {
    const store: Store
    var showQrDialog: bool
    var selectedClient: Option<Client>
    var searchTerm: string

    constructor(store: Store)
      ensures this.store == store && !showQrDialog && selectedClient.None? && searchTerm == ""
    {
      this.store := store;
      showQrDialog := false;
      selectedClient := None;
      searchTerm := "";
    }

    /** The body of the seeding effect, which runs on mount and again
        whenever the number of clients changes: an empty store receives the
        sample clients, one `addClient` at a time. Deleting the last client
        empties the store, so the next run brings every sample back. */
    method SeedIfEmpty(samples: seq<Client>)
      modifies store`clients
      ensures old(store.clients) == [] ==> store.clients == samples
      ensures old(store.clients) != [] ==> store.clients == old(store.clients)
    {
      if |store.clients| != 0 {
        return;
      }
      for i := 0 to |samples|
        invariant store.clients == samples[..i]
      {
        store.AddClient(samples[i]);
        assert samples[..i + 1] == samples[..i] + [samples[i]];
      }
      assert samples[..|samples|] == samples;
    }

    /** `handleConnect`: the QR dialog opens, on the first client with that
        id, only when there is one. */
    method HandleConnect(clientId: string)
      modifies this`showQrDialog, this`selectedClient
      ensures (forall c :: c in store.clients ==> c.id != clientId) ==>
        showQrDialog == old(showQrDialog) && selectedClient == old(selectedClient)
      ensures forall i :: 0 <= i < |store.clients| && store.clients[i].id == clientId &&
                          (forall j :: 0 <= j < i ==> store.clients[j].id != clientId) ==>
        showQrDialog && selectedClient == Some(store.clients[i])
    {
      var found := Find(store.clients, (c: Client) => c.id == clientId);
      if found.Some? {
        selectedClient := found;
        showQrDialog := true;
      }
    }

    /** `handleDisconnect`: with the loading flag up, every client with that
        id becomes disconnected (unless the request fails); the flag is down
        afterwards either way. */
    method HandleDisconnect(clientId: string, fails: bool)
      modifies store`clients, store`isLoading
      ensures !fails ==> store.clients == AfterDisconnect(old(store.clients), clientId)
      ensures fails ==> store.clients == old(store.clients)
      ensures !store.isLoading
    {
      store.SetLoading(true);
      if !fails {
        store.UpdateClient(clientId, ClientStatusPatch(Disconnected));
      }
      store.SetLoading(false);
    }
  }

  /** After a disconnect, the client's row offers to connect again and every
      other row is unchanged. */
  lemma DisconnectThenConnect(clients: seq<Client>, id: string)
    ensures var after := AfterDisconnect(clients, id);
      forall i :: 0 <= i < |clients| ==>
        (clients[i].id == id ==> ActionFor(after[i].status) == Connect) &&
        (clients[i].id != id ==> after[i] == clients[i])
  {
    UpdateClientStatus(clients, id, Disconnected);
  }
}
