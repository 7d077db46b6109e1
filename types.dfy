/** The entities of the dashboard (`src/types/index.ts`, `src/types/ai.ts`) and
    the `Partial<T>` patches the store merges into them with `{ ...e, ...updates }`.

    An optional member `x?: T` (and `x?: T | null`) is an `Option<T>`; a patch
    field is `None` when the key is absent from the patch and `Some(v)` when it
    is present, so a patch can also clear an optional member with `Some(None)`. */
module Types {
  import opened Seqs

  datatype ClientStatus = Connected | Disconnected | Scanning | ClientError

  /** A WhatsApp account driven by the dashboard; `rating` is a health score. */
  datatype Client = Client(
    id: string,
    name: string,
    phoneNumber: string,
    status: ClientStatus,
    lastSeen: Option<string>,
    rating: int,
    dailyLimit: int,
    sentToday: int,
    avatar: Option<string>,
    qrCode: Option<string>)

  datatype CampaignStatus = Draft | Scheduled | Running | CampaignCompleted | CampaignFailed

  datatype TargetStatus = Pending | TargetSent | TargetDelivered | TargetFailed

  datatype BlastTarget = BlastTarget(
    id: string,
    phoneNumber: string,
    name: Option<string>,
    status: TargetStatus,
    sentAt: Option<string>,
    error: Option<string>)

  datatype BlastStats = BlastStats(total: int, sent: int, delivered: int, failed: int, pending: int)

  datatype MessageTemplate = MessageTemplate(
    id: string,
    name: string,
    content: string,
    variables: Option<seq<string>>,
    createdAt: string,
    lastUsed: Option<string>)

  /** A broadcast ("blast") of one template to many targets. */
  datatype Campaign = Campaign(
    id: string,
    name: string,
    status: CampaignStatus,
    template: MessageTemplate,
    targets: seq<BlastTarget>,
    clientIds: seq<string>,
    scheduledAt: Option<string>,
    createdAt: string,
    completedAt: Option<string>,
    stats: BlastStats)

  datatype SessionStatus = Active | Paused | SessionCompleted

  /** Two of the user's own clients chatting with each other to build up trust. */
  datatype WarmerSession = WarmerSession(
    id: string,
    clientId: string,
    targetClientId: string,
    status: SessionStatus,
    startedAt: string,
    duration: int,
    messagesSent: int,
    lastActivity: Option<string>)

  /** The outcome of checking whether a phone number is on WhatsApp. */
  datatype NumberCheck = NumberCheck(
    phoneNumber: string,
    isValid: bool,
    hasWhatsApp: bool,
    lastChecked: string,
    profilePicture: Option<string>,
    about: Option<string>,
    error: Option<string>)

  datatype MessageType = Text | Image | Document | Audio | Video

  datatype MessageDirection = Incoming | Outgoing

  datatype MessageStatus = MessageSent | MessageDelivered | MessageRead | MessageFailed

  /** A chat message; the source's `type` member is called `kind` here. */
  datatype Message = Message(
    id: string,
    conversationId: string,
    content: string,
    kind: MessageType,
    direction: MessageDirection,
    timestamp: string,
    status: MessageStatus,
    mediaUrl: Option<string>,
    fileName: Option<string>)

  datatype Conversation = Conversation(
    id: string,
    clientId: string,
    contactNumber: string,
    contactName: Option<string>,
    lastMessage: Message,
    unreadCount: int,
    updatedAt: string,
    isArchived: bool,
    isPinned: bool)

  /** An entry of the address book: a contact or a business found on a map. */
  datatype Address = Address(
    id: string,
    name: string,
    address: string,
    phoneNumber: string,
    rating: Option<real>,
    reviews: Option<int>,
    website: Option<string>,
    email: Option<string>,
    latitude: Option<real>,
    longitude: Option<real>,
    postalCode: Option<string>,
    city: Option<string>,
    state: Option<string>,
    country: Option<string>,
    url: Option<string>,
    odp: Option<string>,
    distance: Option<string>,
    status: Option<string>,
    isBusiness: bool,
    businessName: Option<string>,
    businessCategory: Option<string>,
    hasReceivedMessage: bool,
    createdAt: Option<string>,
    updatedAt: Option<string>)

  datatype AIRole = User | Assistant

  datatype AIMessageStatus = Sending | AISent | AIError

  datatype AIMessage = AIMessage(
    id: string,
    content: string,
    role: AIRole,
    timestamp: string,
    status: Option<AIMessageStatus>)

  datatype AIConversation = AIConversation(
    id: string,
    title: string,
    messages: seq<AIMessage>,
    createdAt: string,
    updatedAt: string)

  datatype AIFeatures = AIFeatures(
    smartReply: bool,
    messageAnalysis: bool,
    contentGeneration: bool,
    customerInsights: bool)

  datatype AISettings = AISettings(
    modelId: string,
    systemPrompt: string,
    welcomeMessage: string,
    temperature: real,
    maxTokens: int,
    autoReply: bool,
    enabledFeatures: AIFeatures)

  datatype PromptCategory = Marketing | CustomerService | Sales | Content | Other

  datatype AIPromptTemplate = AIPromptTemplate(
    id: string,
    name: string,
    description: string,
    prompt: string,
    category: PromptCategory,
    variables: Option<seq<string>>,
    createdAt: string,
    lastUsed: Option<string>)

  /** The value a spread takes for one key: the patch's when the key is present. */
  function Pick<T>(patch: Option<T>, current: T): T
  {
    if patch.Some? then patch.value else current
  }

  /** `Partial<WhatsAppClient>`. */
  datatype ClientPatch = ClientPatch(
    id: Option<string>,
    name: Option<string>,
    phoneNumber: Option<string>,
    status: Option<ClientStatus>,
    lastSeen: Option<Option<string>>,
    rating: Option<int>,
    dailyLimit: Option<int>,
    sentToday: Option<int>,
    avatar: Option<Option<string>>,
    qrCode: Option<Option<string>>)

  /** `{ ...c, ...p }`. */
  function MergeClient(c: Client, p: ClientPatch): Client
  {
    Client(
      Pick(p.id, c.id), Pick(p.name, c.name), Pick(p.phoneNumber, c.phoneNumber),
      Pick(p.status, c.status), Pick(p.lastSeen, c.lastSeen), Pick(p.rating, c.rating),
      Pick(p.dailyLimit, c.dailyLimit), Pick(p.sentToday, c.sentToday),
      Pick(p.avatar, c.avatar), Pick(p.qrCode, c.qrCode))
  }

  /** The patch `{ status }`. */
  function ClientStatusPatch(s: ClientStatus): ClientPatch
  {
    ClientPatch(None, None, None, Some(s), None, None, None, None, None, None)
  }

  /** `Partial<BlastCampaign>`. */
  datatype CampaignPatch = CampaignPatch(
    id: Option<string>,
    name: Option<string>,
    status: Option<CampaignStatus>,
    template: Option<MessageTemplate>,
    targets: Option<seq<BlastTarget>>,
    clientIds: Option<seq<string>>,
    scheduledAt: Option<Option<string>>,
    createdAt: Option<string>,
    completedAt: Option<Option<string>>,
    stats: Option<BlastStats>)

  function MergeCampaign(c: Campaign, p: CampaignPatch): Campaign
  {
    Campaign(
      Pick(p.id, c.id), Pick(p.name, c.name), Pick(p.status, c.status),
      Pick(p.template, c.template), Pick(p.targets, c.targets), Pick(p.clientIds, c.clientIds),
      Pick(p.scheduledAt, c.scheduledAt), Pick(p.createdAt, c.createdAt),
      Pick(p.completedAt, c.completedAt), Pick(p.stats, c.stats))
  }

  /** `Partial<MessageTemplate>`. */
  datatype TemplatePatch = TemplatePatch(
    id: Option<string>,
    name: Option<string>,
    content: Option<string>,
    variables: Option<Option<seq<string>>>,
    createdAt: Option<string>,
    lastUsed: Option<Option<string>>)

  function MergeTemplate(t: MessageTemplate, p: TemplatePatch): MessageTemplate
  {
    MessageTemplate(
      Pick(p.id, t.id), Pick(p.name, t.name), Pick(p.content, t.content),
      Pick(p.variables, t.variables), Pick(p.createdAt, t.createdAt), Pick(p.lastUsed, t.lastUsed))
  }

  /** `Partial<WarmerSession>`. */
  datatype SessionPatch = SessionPatch(
    id: Option<string>,
    clientId: Option<string>,
    targetClientId: Option<string>,
    status: Option<SessionStatus>,
    startedAt: Option<string>,
    duration: Option<int>,
    messagesSent: Option<int>,
    lastActivity: Option<Option<string>>)

  function MergeSession(s: WarmerSession, p: SessionPatch): WarmerSession
  {
    WarmerSession(
      Pick(p.id, s.id), Pick(p.clientId, s.clientId), Pick(p.targetClientId, s.targetClientId),
      Pick(p.status, s.status), Pick(p.startedAt, s.startedAt), Pick(p.duration, s.duration),
      Pick(p.messagesSent, s.messagesSent), Pick(p.lastActivity, s.lastActivity))
  }

  /** `Partial<Address>`. */
  datatype AddressPatch = AddressPatch(
    id: Option<string>,
    name: Option<string>,
    address: Option<string>,
    phoneNumber: Option<string>,
    rating: Option<Option<real>>,
    reviews: Option<Option<int>>,
    website: Option<Option<string>>,
    email: Option<Option<string>>,
    latitude: Option<Option<real>>,
    longitude: Option<Option<real>>,
    postalCode: Option<Option<string>>,
    city: Option<Option<string>>,
    state: Option<Option<string>>,
    country: Option<Option<string>>,
    url: Option<Option<string>>,
    odp: Option<Option<string>>,
    distance: Option<Option<string>>,
    status: Option<Option<string>>,
    isBusiness: Option<bool>,
    businessName: Option<Option<string>>,
    businessCategory: Option<Option<string>>,
    hasReceivedMessage: Option<bool>,
    createdAt: Option<Option<string>>,
    updatedAt: Option<Option<string>>)

  function MergeAddress(a: Address, p: AddressPatch): Address
  {
    Address(
      Pick(p.id, a.id), Pick(p.name, a.name), Pick(p.address, a.address),
      Pick(p.phoneNumber, a.phoneNumber), Pick(p.rating, a.rating), Pick(p.reviews, a.reviews),
      Pick(p.website, a.website), Pick(p.email, a.email), Pick(p.latitude, a.latitude),
      Pick(p.longitude, a.longitude), Pick(p.postalCode, a.postalCode), Pick(p.city, a.city),
      Pick(p.state, a.state), Pick(p.country, a.country), Pick(p.url, a.url), Pick(p.odp, a.odp),
      Pick(p.distance, a.distance), Pick(p.status, a.status), Pick(p.isBusiness, a.isBusiness),
      Pick(p.businessName, a.businessName), Pick(p.businessCategory, a.businessCategory),
      Pick(p.hasReceivedMessage, a.hasReceivedMessage), Pick(p.createdAt, a.createdAt),
      Pick(p.updatedAt, a.updatedAt))
  }

  /** The patch `{}`. */
  const EmptyAddressPatch: AddressPatch :=
    AddressPatch(None, None, None, None, None, None, None, None, None, None, None, None, None, None,
                 None, None, None, None, None, None, None, None, None, None)

  /** An address with every member present, as a full patch. */
  function AddressAsPatch(a: Address): AddressPatch
  {
    AddressPatch(
      Some(a.id), Some(a.name), Some(a.address), Some(a.phoneNumber), Some(a.rating),
      Some(a.reviews), Some(a.website), Some(a.email), Some(a.latitude), Some(a.longitude),
      Some(a.postalCode), Some(a.city), Some(a.state), Some(a.country), Some(a.url), Some(a.odp),
      Some(a.distance), Some(a.status), Some(a.isBusiness), Some(a.businessName),
      Some(a.businessCategory), Some(a.hasReceivedMessage), Some(a.createdAt), Some(a.updatedAt))
  }

  /** The laws of the spread `{ ...c, ...p }`: spreading the same patch twice
      is spreading it once, an empty patch changes nothing, every key the
      patch holds wins, and the id survives a patch without an `id` key. */
  lemma MergeClientLaws(c: Client, p: ClientPatch)
    ensures MergeClient(MergeClient(c, p), p) == MergeClient(c, p)
    ensures MergeClient(c, ClientPatch(None, None, None, None, None, None, None, None, None, None)) == c
    ensures p.id.None? ==> MergeClient(c, p).id == c.id
    ensures (p.id.Some? ==> MergeClient(c, p).id == p.id.value) &&
            (p.name.Some? ==> MergeClient(c, p).name == p.name.value) &&
            (p.phoneNumber.Some? ==> MergeClient(c, p).phoneNumber == p.phoneNumber.value) &&
            (p.status.Some? ==> MergeClient(c, p).status == p.status.value) &&
            (p.lastSeen.Some? ==> MergeClient(c, p).lastSeen == p.lastSeen.value) &&
            (p.rating.Some? ==> MergeClient(c, p).rating == p.rating.value) &&
            (p.dailyLimit.Some? ==> MergeClient(c, p).dailyLimit == p.dailyLimit.value) &&
            (p.sentToday.Some? ==> MergeClient(c, p).sentToday == p.sentToday.value) &&
            (p.avatar.Some? ==> MergeClient(c, p).avatar == p.avatar.value) &&
            (p.qrCode.Some? ==> MergeClient(c, p).qrCode == p.qrCode.value)
  {
  }

  lemma MergeCampaignLaws(c: Campaign, p: CampaignPatch)
    ensures MergeCampaign(MergeCampaign(c, p), p) == MergeCampaign(c, p)
    ensures MergeCampaign(c, CampaignPatch(None, None, None, None, None, None, None, None, None, None)) == c
    ensures p.id.None? ==> MergeCampaign(c, p).id == c.id
    ensures (p.id.Some? ==> MergeCampaign(c, p).id == p.id.value) &&
            (p.name.Some? ==> MergeCampaign(c, p).name == p.name.value) &&
            (p.status.Some? ==> MergeCampaign(c, p).status == p.status.value) &&
            (p.template.Some? ==> MergeCampaign(c, p).template == p.template.value) &&
            (p.targets.Some? ==> MergeCampaign(c, p).targets == p.targets.value) &&
            (p.clientIds.Some? ==> MergeCampaign(c, p).clientIds == p.clientIds.value) &&
            (p.scheduledAt.Some? ==> MergeCampaign(c, p).scheduledAt == p.scheduledAt.value) &&
            (p.createdAt.Some? ==> MergeCampaign(c, p).createdAt == p.createdAt.value) &&
            (p.completedAt.Some? ==> MergeCampaign(c, p).completedAt == p.completedAt.value) &&
            (p.stats.Some? ==> MergeCampaign(c, p).stats == p.stats.value)
  {
  }

  lemma MergeTemplateLaws(t: MessageTemplate, p: TemplatePatch)
    ensures MergeTemplate(MergeTemplate(t, p), p) == MergeTemplate(t, p)
    ensures MergeTemplate(t, TemplatePatch(None, None, None, None, None, None)) == t
    ensures p.id.None? ==> MergeTemplate(t, p).id == t.id
    ensures (p.id.Some? ==> MergeTemplate(t, p).id == p.id.value) &&
            (p.name.Some? ==> MergeTemplate(t, p).name == p.name.value) &&
            (p.content.Some? ==> MergeTemplate(t, p).content == p.content.value) &&
            (p.variables.Some? ==> MergeTemplate(t, p).variables == p.variables.value) &&
            (p.createdAt.Some? ==> MergeTemplate(t, p).createdAt == p.createdAt.value) &&
            (p.lastUsed.Some? ==> MergeTemplate(t, p).lastUsed == p.lastUsed.value)
  {
  }

  lemma MergeSessionLaws(s: WarmerSession, p: SessionPatch)
    ensures MergeSession(MergeSession(s, p), p) == MergeSession(s, p)
    ensures MergeSession(s, SessionPatch(None, None, None, None, None, None, None, None)) == s
    ensures p.id.None? ==> MergeSession(s, p).id == s.id
    ensures (p.id.Some? ==> MergeSession(s, p).id == p.id.value) &&
            (p.clientId.Some? ==> MergeSession(s, p).clientId == p.clientId.value) &&
            (p.targetClientId.Some? ==> MergeSession(s, p).targetClientId == p.targetClientId.value) &&
            (p.status.Some? ==> MergeSession(s, p).status == p.status.value) &&
            (p.startedAt.Some? ==> MergeSession(s, p).startedAt == p.startedAt.value) &&
            (p.duration.Some? ==> MergeSession(s, p).duration == p.duration.value) &&
            (p.messagesSent.Some? ==> MergeSession(s, p).messagesSent == p.messagesSent.value) &&
            (p.lastActivity.Some? ==> MergeSession(s, p).lastActivity == p.lastActivity.value)
  {
  }

  /** The same laws for an address; besides, an address spread with a
      complete patch becomes exactly the patch's address. */
  lemma MergeAddressLaws(a: Address, p: AddressPatch, b: Address)
    ensures MergeAddress(MergeAddress(a, p), p) == MergeAddress(a, p)
    ensures MergeAddress(a, EmptyAddressPatch) == a
    ensures p.id.None? ==> MergeAddress(a, p).id == a.id
    ensures (p.id.Some? ==> MergeAddress(a, p).id == p.id.value) &&
            (p.name.Some? ==> MergeAddress(a, p).name == p.name.value) &&
            (p.address.Some? ==> MergeAddress(a, p).address == p.address.value) &&
            (p.phoneNumber.Some? ==> MergeAddress(a, p).phoneNumber == p.phoneNumber.value) &&
            (p.rating.Some? ==> MergeAddress(a, p).rating == p.rating.value) &&
            (p.reviews.Some? ==> MergeAddress(a, p).reviews == p.reviews.value) &&
            (p.website.Some? ==> MergeAddress(a, p).website == p.website.value) &&
            (p.email.Some? ==> MergeAddress(a, p).email == p.email.value) &&
            (p.latitude.Some? ==> MergeAddress(a, p).latitude == p.latitude.value) &&
            (p.longitude.Some? ==> MergeAddress(a, p).longitude == p.longitude.value) &&
            (p.postalCode.Some? ==> MergeAddress(a, p).postalCode == p.postalCode.value) &&
            (p.city.Some? ==> MergeAddress(a, p).city == p.city.value) &&
            (p.state.Some? ==> MergeAddress(a, p).state == p.state.value) &&
            (p.country.Some? ==> MergeAddress(a, p).country == p.country.value) &&
            (p.url.Some? ==> MergeAddress(a, p).url == p.url.value) &&
            (p.odp.Some? ==> MergeAddress(a, p).odp == p.odp.value) &&
            (p.distance.Some? ==> MergeAddress(a, p).distance == p.distance.value) &&
            (p.status.Some? ==> MergeAddress(a, p).status == p.status.value) &&
            (p.isBusiness.Some? ==> MergeAddress(a, p).isBusiness == p.isBusiness.value) &&
            (p.businessName.Some? ==> MergeAddress(a, p).businessName == p.businessName.value) &&
            (p.businessCategory.Some? ==> MergeAddress(a, p).businessCategory == p.businessCategory.value) &&
            (p.hasReceivedMessage.Some? ==> MergeAddress(a, p).hasReceivedMessage == p.hasReceivedMessage.value) &&
            (p.createdAt.Some? ==> MergeAddress(a, p).createdAt == p.createdAt.value) &&
            (p.updatedAt.Some? ==> MergeAddress(a, p).updatedAt == p.updatedAt.value)
    ensures MergeAddress(a, AddressAsPatch(b)) == b
  {
  }
}
