/** The global zustand store (`src/stores/appStore.ts`): UI flags, the entity
    collections and their id-keyed add / update / remove actions, and the
    `partialize` projection that selects what is persisted. */
module AppStore {
  import opened Seqs
  import opened Types

  /** `s.map(e => key(e) === id ? f(e) : e)`: the elements with that id are
      replaced by `f` of themselves, every other element stays identical. */
  function UpdatedById<E>(s: seq<E>, key: E -> string, id: string, f: E -> E): (r: seq<E>)
    ensures |r| == |s|
    ensures forall i :: 0 <= i < |s| && key(s[i]) != id ==> r[i] == s[i]
    ensures forall i :: 0 <= i < |s| && key(s[i]) == id ==> r[i] == f(s[i])
  {
    seq(|s|, i requires 0 <= i < |s| => if key(s[i]) == id then f(s[i]) else s[i])
  }

  /** `s.filter(e => key(e) !== id)`. */
  function RemovedById<E(==)>(s: seq<E>, key: E -> string, id: string): (r: seq<E>)
    ensures forall e :: e in r ==> e in s && key(e) != id
    ensures forall e :: e in s && key(e) != id ==> e in r
    ensures IsSubsequence(r, s)
  {
    Filter(s, (e: E) => key(e) != id)
  }

  /** Updating an id no element carries leaves the collection as it was. */
  lemma UpdateAbsent<E>(s: seq<E>, key: E -> string, id: string, f: E -> E)
    requires forall i :: 0 <= i < |s| ==> key(s[i]) != id
    ensures UpdatedById(s, key, id, f) == s
  {
  }

  /** Applying the same update twice is applying it once, when the update
      itself is idempotent (as every spread of a fixed patch is). */
  lemma UpdateIdempotent<E>(s: seq<E>, key: E -> string, id: string, f: E -> E)
    requires forall e :: f(f(e)) == f(e)
    ensures UpdatedById(UpdatedById(s, key, id, f), key, id, f) == UpdatedById(s, key, id, f)
  {
    var once := UpdatedById(s, key, id, f);
    var twice := UpdatedById(once, key, id, f);
    forall i | 0 <= i < |s|
      ensures twice[i] == once[i]
    {
      if key(s[i]) == id {
        assert once[i] == f(s[i]);
      }
    }
  }

  /** Removing twice is removing once. */
  lemma RemoveIdempotent<E>(s: seq<E>, key: E -> string, id: string)
    ensures RemovedById(RemovedById(s, key, id), key, id) == RemovedById(s, key, id)
  {
    FilterIdempotent(s, (e: E) => key(e) != id);
  }

  /** Removing an id no element carries leaves the collection as it was. */
  lemma RemoveAbsent<E>(s: seq<E>, key: E -> string, id: string)
    requires forall i :: 0 <= i < |s| ==> key(s[i]) != id
    ensures RemovedById(s, key, id) == s
  {
    FilterAll(s, (e: E) => key(e) != id);
  }

  /** The removed elements are exactly those carrying the id: the survivors and
      the matches together account for the whole collection. */
  lemma RemoveCount<E>(s: seq<E>, key: E -> string, id: string)
    ensures |RemovedById(s, key, id)| + |Filter(s, (e: E) => key(e) == id)| == |s|
  {
    FilterPartitionCount(s, (e: E) => key(e) != id, (e: E) => key(e) == id);
  }

  /** Adding an entity and then removing its id is the same as removing the id
      from the original collection. */
  lemma RemoveAfterAdd<E>(s: seq<E>, key: E -> string, e: E)
    ensures RemovedById(s + [e], key, key(e)) == RemovedById(s, key, key(e))
  {
    var keep := (x: E) => key(x) != key(e);
    FilterAppend(s, [e], keep);
    assert Filter([e], keep) == [];
    assert Filter(s, keep) + [] == Filter(s, keep);
  }

  /** After adding an entity whose id was new, looking the id up finds it. */
  lemma FindAfterAdd<E>(s: seq<E>, key: E -> string, e: E)
    requires forall i :: 0 <= i < |s| ==> key(s[i]) != key(e)
    ensures Find(s + [e], (x: E) => key(x) == key(e)) == Some(e)
  {
    var t := s + [e];
    var r := Find(t, (x: E) => key(x) == key(e));
    assert t[|s|] == e;
    assert forall i :: 0 <= i < |s| ==> t[i] == s[i];
  }

  function ClientKey(c: Client): string { c.id }
  function CampaignKey(c: Campaign): string { c.id }
  function TemplateKey(t: MessageTemplate): string { t.id }
  function SessionKey(s: WarmerSession): string { s.id }
  function AddressKey(a: Address): string { a.id }

  /** The slice of the state `partialize` hands to the persistence layer. */
  datatype Persisted = Persisted(
    theme: string,
    sidebarCollapsed: bool,
    clients: seq<Client>,
    campaigns: seq<Campaign>,
    templates: seq<MessageTemplate>,
    addresses: seq<Address>,
    warmerSessions: seq<WarmerSession>)

  class Store {
    var isLoading: bool
    var theme: string
    var sidebarCollapsed: bool
    var clients: seq<Client>
    var campaigns: seq<Campaign>
    var templates: seq<MessageTemplate>
    var conversations: seq<Conversation>
    var addresses: seq<Address>
    var warmerSessions: seq<WarmerSession>
    var aiConversations: seq<AIConversation>
    var aiSettings: AISettings
    var promptTemplates: seq<AIPromptTemplate>

    /** The initial state; the mock fixtures are parameters. */
    constructor(mockAddresses: seq<Address>, mockAIConversations: seq<AIConversation>,
                mockAISettings: AISettings, mockPromptTemplates: seq<AIPromptTemplate>)
      ensures !isLoading && theme == "system" && !sidebarCollapsed
      ensures clients == [] && campaigns == [] && templates == [] && conversations == []
      ensures warmerSessions == [] && addresses == mockAddresses
      ensures aiConversations == mockAIConversations && aiSettings == mockAISettings
      ensures promptTemplates == mockPromptTemplates
    {
      isLoading := false;
      theme := "system";
      sidebarCollapsed := false;
      clients := [];
      campaigns := [];
      templates := [];
      conversations := [];
      addresses := mockAddresses;
      warmerSessions := [];
      aiConversations := mockAIConversations;
      aiSettings := mockAISettings;
      promptTemplates := mockPromptTemplates;
    }

    /** `partialize`: theme, sidebar flag and the five persisted collections. */
    function Partialize(): Persisted
      reads this
    {
      Persisted(theme, sidebarCollapsed, clients, campaigns, templates, addresses, warmerSessions)
    }

    method SetLoading(loading: bool)
      modifies this`isLoading
      ensures isLoading == loading
      ensures Partialize() == old(Partialize())
    {
      isLoading := loading;
    }

    method SetTheme(t: string)
      modifies this`theme
      ensures theme == t
    {
      theme := t;
    }

    method ToggleSidebar()
      modifies this`sidebarCollapsed
      ensures sidebarCollapsed == !old(sidebarCollapsed)
    {
      sidebarCollapsed := !sidebarCollapsed;
    }

    method AddClient(c: Client)
      modifies this`clients
      ensures clients == old(clients) + [c]
    {
      clients := clients + [c];
    }

    method UpdateClient(id: string, updates: ClientPatch)
      modifies this`clients
      ensures clients == UpdatedById(old(clients), ClientKey, id, (c: Client) => MergeClient(c, updates))
    {
      clients := UpdatedById(clients, ClientKey, id, (c: Client) => MergeClient(c, updates));
    }

    method RemoveClient(id: string)
      modifies this`clients
      ensures clients == RemovedById(old(clients), ClientKey, id)
    {
      clients := RemovedById(clients, ClientKey, id);
    }

    method AddCampaign(c: Campaign)
      modifies this`campaigns
      ensures campaigns == old(campaigns) + [c]
    {
      campaigns := campaigns + [c];
    }

    /** `deleteCampaign`, the same effect as `removeCampaign`. */
    method DeleteCampaign(campaignId: string)
      modifies this`campaigns
      ensures campaigns == RemovedById(old(campaigns), CampaignKey, campaignId)
    {
      campaigns := RemovedById(campaigns, CampaignKey, campaignId);
    }

    method UpdateCampaign(id: string, updates: CampaignPatch)
      modifies this`campaigns
      ensures campaigns == UpdatedById(old(campaigns), CampaignKey, id, (c: Campaign) => MergeCampaign(c, updates))
    {
      campaigns := UpdatedById(campaigns, CampaignKey, id, (c: Campaign) => MergeCampaign(c, updates));
    }

    method RemoveCampaign(id: string)
      modifies this`campaigns
      ensures campaigns == RemovedById(old(campaigns), CampaignKey, id)
    {
      campaigns := RemovedById(campaigns, CampaignKey, id);
    }

    method AddTemplate(t: MessageTemplate)
      modifies this`templates
      ensures templates == old(templates) + [t]
    {
      templates := templates + [t];
    }

    method UpdateTemplate(id: string, updates: TemplatePatch)
      modifies this`templates
      ensures templates == UpdatedById(old(templates), TemplateKey, id, (t: MessageTemplate) => MergeTemplate(t, updates))
    {
      templates := UpdatedById(templates, TemplateKey, id, (t: MessageTemplate) => MergeTemplate(t, updates));
    }

    method RemoveTemplate(id: string)
      modifies this`templates
      ensures templates == RemovedById(old(templates), TemplateKey, id)
    {
      templates := RemovedById(templates, TemplateKey, id);
    }

    method AddWarmerSession(s: WarmerSession)
      modifies this`warmerSessions
      ensures warmerSessions == old(warmerSessions) + [s]
    {
      warmerSessions := warmerSessions + [s];
    }

    method UpdateWarmerSession(sessionId: string, updates: SessionPatch)
      modifies this`warmerSessions
      ensures warmerSessions == UpdatedById(old(warmerSessions), SessionKey, sessionId, (s: WarmerSession) => MergeSession(s, updates))
    {
      warmerSessions := UpdatedById(warmerSessions, SessionKey, sessionId, (s: WarmerSession) => MergeSession(s, updates));
    }

    method DeleteWarmerSession(sessionId: string)
      modifies this`warmerSessions
      ensures warmerSessions == RemovedById(old(warmerSessions), SessionKey, sessionId)
    {
      warmerSessions := RemovedById(warmerSessions, SessionKey, sessionId);
    }

    method AddAddress(a: Address)
      modifies this`addresses
      ensures addresses == old(addresses) + [a]
    {
      addresses := addresses + [a];
    }

    method UpdateAddress(id: string, updates: AddressPatch)
      modifies this`addresses
      ensures addresses == UpdatedById(old(addresses), AddressKey, id, (a: Address) => MergeAddress(a, updates))
    {
      addresses := UpdatedById(addresses, AddressKey, id, (a: Address) => MergeAddress(a, updates));
    }

    method RemoveAddress(id: string)
      modifies this`addresses
      ensures addresses == RemovedById(old(addresses), AddressKey, id)
    {
      addresses := RemovedById(addresses, AddressKey, id);
    }
  }

  /** Two stores persist the same thing exactly when they agree on the seven
      persisted members: `isLoading`, `conversations` and the AI members never
      reach storage. */
  lemma PartializeExactly(a: Store, b: Store)
    ensures a.Partialize() == b.Partialize() <==>
      a.theme == b.theme && a.sidebarCollapsed == b.sidebarCollapsed &&
      a.clients == b.clients && a.campaigns == b.campaigns && a.templates == b.templates &&
      a.addresses == b.addresses && a.warmerSessions == b.warmerSessions
  {
  }

  /** Toggling the sidebar twice restores it, and no toggle touches any other
      member of the state. */
  method ToggleTwice(s: Store)
    modifies s`sidebarCollapsed
    ensures s.sidebarCollapsed == old(s.sidebarCollapsed)
  {
    s.ToggleSidebar();
    s.ToggleSidebar();
  }

  /** Updating a client's status through the store changes that client's
      status and nothing about any other client. */
  lemma UpdateClientStatus(s: seq<Client>, id: string, st: ClientStatus)
    ensures var r := UpdatedById(s, ClientKey, id, (c: Client) => MergeClient(c, ClientStatusPatch(st)));
      |r| == |s| &&
      (forall i :: 0 <= i < |s| && s[i].id == id ==> r[i] == s[i].(status := st)) &&
      (forall i :: 0 <= i < |s| && s[i].id != id ==> r[i] == s[i])
  {
  }
}
