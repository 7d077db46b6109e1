/** The broadcast page (`src/components/pages/WhatsAppBlast.tsx`): the campaign
    search, the creation form and its schema, campaign creation with the
    store's loading flag, template selection, deletion, and the statistic
    cards. Clock readings and the failure of the simulated request are
    parameters. */
module WhatsAppBlast {
  import opened Seqs
  import opened Text
  import opened Types
  import opened AppStore

  /** `filteredCampaigns`: the campaigns whose name contains the term, ignoring case. */
  function FilteredCampaigns(campaigns: seq<Campaign>, term: string): (r: seq<Campaign>)
    ensures forall c :: c in r <==> c in campaigns && IncludesIgnoringCase(c.name, term)
    ensures IsSubsequence(r, campaigns)
  {
    Filter(campaigns, (c: Campaign) => IncludesIgnoringCase(c.name, term))
  }

  /** An empty search lists every campaign, in order. */
  lemma EmptySearchListsAll(campaigns: seq<Campaign>)
    ensures FilteredCampaigns(campaigns, "") == campaigns
  {
    forall c | c in campaigns
      ensures IncludesIgnoringCase(c.name, "")
    {
      IncludesIgnoringCaseLaws(c.name, "");
    }
    FilterAll(campaigns, (c: Campaign) => IncludesIgnoringCase(c.name, ""));
  }

  datatype SendingSpeed = Slow | Normal | Fast

  /** The creation form's values. */
  datatype CampaignForm = CampaignForm(
    name: string,
    message: string,
    selectedClients: seq<string>,
    scheduledDate: Option<string>,
    sendingSpeed: SendingSpeed)

  /** `campaignSchema`; the speed is one of the three by its type. */
  predicate ValidForm(v: CampaignForm)
  {
    |v.name| >= 1 && |v.message| >= 10 && |v.selectedClients| >= 1
  }

  /** The form's `defaultValues`, also what `form.reset()` restores. */
  const DefaultForm: CampaignForm := CampaignForm("", "", [], Some(""), Normal)

  /** The blank form does not pass the schema. */
  lemma DefaultFormInvalid()
    ensures !ValidForm(DefaultForm)
  {
  }

  /** The clock readings creation takes: two `Date.now()` values (campaign id
      and template id) and two ISO dates (template and campaign). */
  datatype Clock = Clock(idMillis: nat, templateMillis: nat, templateCreatedAt: string, createdAt: string)

  const ZeroStats: BlastStats := BlastStats(0, 0, 0, 0, 0)

  /** The campaign `onSubmit` builds. */
  function NewCampaign(v: CampaignForm, clock: Clock): Campaign
  {
    Campaign(
      NatToString(clock.idMillis),
      v.name,
      Draft,
      MessageTemplate("custom-" + NatToString(clock.templateMillis), "Custom Message", v.message,
                      None, clock.templateCreatedAt, None),
      [],
      v.selectedClients,
      NullIfEmpty(v.scheduledDate),
      clock.createdAt,
      None,
      ZeroStats)
  }

  predicate IsRunning(c: Campaign)
  {
    c.status == Running
  }

  function SentOf(c: Campaign): int { c.stats.sent }
  function DeliveredOf(c: Campaign): int { c.stats.delivered }

  /** `activeCampaigns`: the running campaigns. */
  function ActiveCampaigns(campaigns: seq<Campaign>): (r: nat)
    ensures r <= |campaigns|
    ensures r == 0 <==> forall c :: c in campaigns ==> !IsRunning(c)
  {
    var running := Filter(campaigns, IsRunning);
    assert running != [] ==> running[0] in running;
    |running|
  }

  function TotalSent(campaigns: seq<Campaign>): int
  {
    Sum(campaigns, SentOf)
  }

  function TotalDelivered(campaigns: seq<Campaign>): int
  {
    Sum(campaigns, DeliveredOf)
  }

  /** `deliveryRate`: delivered over sent, in percent; 0 with nothing sent. */
  function DeliveryRate(campaigns: seq<Campaign>): real
  {
    GuardedPercent(TotalDelivered(campaigns), TotalSent(campaigns))
  }

  /** Stats that make sense: nothing negative, no more delivered than sent,
      no more sent than targeted. */
  predicate SaneStats(c: Campaign)
  {
    0 <= c.stats.delivered <= c.stats.sent <= c.stats.total
  }

  /** The delivery rate is 0 with nothing sent, and a percentage when every
      campaign's stats are sane. */
  lemma DeliveryRateBounds(campaigns: seq<Campaign>)
    ensures TotalSent(campaigns) == 0 ==> DeliveryRate(campaigns) == 0.0
    ensures (forall c :: c in campaigns ==> SaneStats(c)) ==> 0.0 <= DeliveryRate(campaigns) <= 100.0
  {
    if forall c :: c in campaigns ==> SaneStats(c) {
      SumMonotone(campaigns, DeliveredOf, SentOf);
      SumMonotone(campaigns, (c: Campaign) => 0, DeliveredOf);
      SumZero(campaigns);
    }
  }

  lemma {:induction false} SumZero(campaigns: seq<Campaign>)
    ensures Sum(campaigns, (c: Campaign) => 0) == 0
  {
    if campaigns != [] {
      SumZero(campaigns[1..]);
    }
  }

  /** The progress bar of one campaign: sent over total, in percent; 0 for
      an empty campaign. */
  function Progress(c: Campaign): (r: real)
    ensures c.stats.total <= 0 ==> r == 0.0
    ensures SaneStats(c) ==> 0.0 <= r <= 100.0
  {
    GuardedPercent(c.stats.sent, c.stats.total)
  }

  /** A campaign with 500 targets of which 487 were sent shows 97.4 percent. */
  lemma SampleProgress(c: Campaign)
    requires c.stats.total == 500 && c.stats.sent == 487
    ensures Progress(c) == 97.4
  {
  }

  /** A created campaign is a draft with no targets and zero stats, for the
      chosen clients and message; it adds nothing to the cards. */
  lemma NewCampaignAddsNothing(campaigns: seq<Campaign>, v: CampaignForm, clock: Clock)
    ensures var c := NewCampaign(v, clock);
      c.status == Draft && c.targets == [] && c.clientIds == v.selectedClients &&
      c.template.content == v.message && Progress(c) == 0.0 &&
      ActiveCampaigns(campaigns + [c]) == ActiveCampaigns(campaigns) &&
      TotalSent(campaigns + [c]) == TotalSent(campaigns) &&
      TotalDelivered(campaigns + [c]) == TotalDelivered(campaigns) &&
      DeliveryRate(campaigns + [c]) == DeliveryRate(campaigns)
  {
    var c := NewCampaign(v, clock);
    FilterAppend(campaigns, [c], IsRunning);
    SumAppend(campaigns, c, SentOf);
    SumAppend(campaigns, c, DeliveredOf);
  }

  class BlastPage {
    const store: Store
    var showCreateDialog: bool
    var searchTerm: string
    var expandedCampaigns: set<string>
    var form: CampaignForm

    constructor(store: Store)
      ensures this.store == store && !showCreateDialog && searchTerm == ""
      ensures expandedCampaigns == {} && form == DefaultForm
    {
      this.store := store;
      showCreateDialog := false;
      searchTerm := "";
      expandedCampaigns := {};
      form := DefaultForm;
    }

    /** The body of the seeding effect, which runs on mount and again
        whenever the number of campaigns changes: an empty store receives the
        sample campaigns, one `addCampaign` at a time. Deleting the last
        campaign empties the store, so the next run brings every sample back. */
    method SeedIfEmpty(samples: seq<Campaign>)
      modifies store`campaigns
      ensures old(store.campaigns) == [] ==> store.campaigns == samples
      ensures old(store.campaigns) != [] ==> store.campaigns == old(store.campaigns)
    {
      if |store.campaigns| != 0 {
        return;
      }
      for i := 0 to |samples|
        invariant store.campaigns == samples[..i]
      {
        store.AddCampaign(samples[i]);
        assert samples[..i + 1] == samples[..i] + [samples[i]];
      }
      assert samples[..|samples|] == samples;
    }

    /** The form's submit: values failing the schema go no further; otherwise
        `onSubmit` runs with the loading flag up, and either adds the new
        campaign, closes the dialog and resets the form, or (when the request
        fails) changes nothing. The flag is down afterwards in both cases. */
    method Submit(v: CampaignForm, clock: Clock, fails: bool)
      modifies store`campaigns, store`isLoading, this`showCreateDialog, this`form
      ensures !ValidForm(v) ==>
        store.campaigns == old(store.campaigns) && store.isLoading == old(store.isLoading) &&
        showCreateDialog == old(showCreateDialog) && form == old(form)
      ensures ValidForm(v) ==> !store.isLoading
      ensures ValidForm(v) && !fails ==>
        store.campaigns == old(store.campaigns) + [NewCampaign(v, clock)] &&
        !showCreateDialog && form == DefaultForm
      ensures ValidForm(v) && fails ==>
        store.campaigns == old(store.campaigns) && showCreateDialog == old(showCreateDialog) &&
        form == old(form)
    {
      if !ValidForm(v) {
        return;
      }
      store.SetLoading(true);
      if !fails {
        store.AddCampaign(NewCampaign(v, clock));
        showCreateDialog := false;
        form := DefaultForm;
      }
      store.SetLoading(false);
    }

    /** `handleTemplateSelect`: the message becomes the content of the first
        template with that id; an unknown id changes nothing. */
    method HandleTemplateSelect(templates: seq<MessageTemplate>, templateId: string)
      modifies this`form
      ensures (forall t :: t in templates ==> t.id != templateId) ==> form == old(form)
      ensures forall i :: 0 <= i < |templates| && templates[i].id == templateId &&
                          (forall j :: 0 <= j < i ==> templates[j].id != templateId) ==>
        form == old(form).(message := templates[i].content)
    {
      var found := Find(templates, (t: MessageTemplate) => t.id == templateId);
      if found.Some? {
        form := form.(message := found.value.content);
      }
    }

    /** `handleDeleteCampaign`: the campaign leaves the store and its card the
        expanded set. */
    method HandleDeleteCampaign(campaignId: string)
      modifies store`campaigns, this`expandedCampaigns
      ensures store.campaigns == RemovedById(old(store.campaigns), CampaignKey, campaignId)
      ensures expandedCampaigns == old(expandedCampaigns) - {campaignId}
    {
      store.DeleteCampaign(campaignId);
      expandedCampaigns := expandedCampaigns - {campaignId};
    }

    /** `toggleCampaignExpansion`. */
    method ToggleCampaignExpansion(campaignId: string)
      modifies this`expandedCampaigns
      ensures expandedCampaigns == Toggled(old(expandedCampaigns), campaignId)
    {
      expandedCampaigns := Toggled(expandedCampaigns, campaignId);
    }
  }
}
