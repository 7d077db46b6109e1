/** The prompt-template manager (`src/components/ai/AIPromptManager.tsx`): the
    search and category filter, the empty state, and the use / copy / delete
    actions that the preview mode switches off. Toasts and the clipboard
    become returned values. */
module AIPromptManager {
  import opened Seqs
  import opened Text
  import opened Types

  /** The category select: "all" or one category. */
  datatype CategoryChoice = AllCategories | Only(category: PromptCategory)

  /** Name or description contains the term, ignoring case. */
  predicate MatchesSearch(t: AIPromptTemplate, term: string)
  {
    IncludesIgnoringCase(t.name, term) || IncludesIgnoringCase(t.description, term)
  }

  predicate MatchesCategory(t: AIPromptTemplate, choice: CategoryChoice)
  {
    choice == AllCategories || t.category == choice.category
  }

  predicate Matches(t: AIPromptTemplate, term: string, choice: CategoryChoice)
  {
    MatchesSearch(t, term) && MatchesCategory(t, choice)
  }

  /** `filteredTemplates`. */
  function FilteredTemplates(templates: seq<AIPromptTemplate>, term: string, choice: CategoryChoice)
    : (r: seq<AIPromptTemplate>)
    ensures forall t :: t in r <==> t in templates && Matches(t, term, choice)
    ensures IsSubsequence(r, templates)
  {
    Filter(templates, (t: AIPromptTemplate) => Matches(t, term, choice))
  }

  /** With no search text and every category, every template is listed. */
  lemma UnfilteredListsAll(templates: seq<AIPromptTemplate>)
    ensures FilteredTemplates(templates, "", AllCategories) == templates
  {
    forall t | t in templates
      ensures Matches(t, "", AllCategories)
    {
      IncludesIgnoringCaseLaws(t.name, "");
    }
    FilterAll(templates, (t: AIPromptTemplate) => Matches(t, "", AllCategories));
  }

  /** Choosing a category narrows the search result to that category, keeping
      its order. */
  lemma CategoryNarrowsSearch(templates: seq<AIPromptTemplate>, term: string, c: PromptCategory)
    ensures FilteredTemplates(templates, term, Only(c)) ==
      Filter(FilteredTemplates(templates, term, AllCategories), (t: AIPromptTemplate) => t.category == c)
  {
    var all := (t: AIPromptTemplate) => Matches(t, term, AllCategories);
    var inCategory := (t: AIPromptTemplate) => t.category == c;
    var narrow := (t: AIPromptTemplate) => Matches(t, term, Only(c));
    FilterFilter(templates, all, inCategory, narrow);
  }

  /** The "nothing found" message. */
  predicate ShowsEmptyState(templates: seq<AIPromptTemplate>, term: string, choice: CategoryChoice)
  {
    |FilteredTemplates(templates, term, choice)| == 0
  }

  /** The message appears exactly when no template matches. */
  lemma EmptyStateIffNoMatch(templates: seq<AIPromptTemplate>, term: string, choice: CategoryChoice)
    ensures ShowsEmptyState(templates, term, choice) <==>
      forall t :: t in templates ==> !Matches(t, term, choice)
  {
    var r := FilteredTemplates(templates, term, choice);
    assert r != [] ==> r[0] in r;
  }

  class PromptManager {
    const isPreview: bool
    var templates: seq<AIPromptTemplate>
    var searchTerm: string
    var selectedCategory: CategoryChoice

    constructor(isPreview: bool, samples: seq<AIPromptTemplate>)
      ensures this.isPreview == isPreview && templates == samples
      ensures searchTerm == "" && selectedCategory == AllCategories
    {
      this.isPreview := isPreview;
      templates := samples;
      searchTerm := "";
      selectedCategory := AllCategories;
    }

    /** `handleUseTemplate`: the notice shown, none in preview mode. */
    method HandleUseTemplate(t: AIPromptTemplate) returns (notice: Option<string>)
      ensures isPreview <==> notice.None?
      ensures !isPreview ==> notice == Some("Prompt \"" + t.name + "\" telah disalin ke AI chat")
    {
      if isPreview {
        return None;
      }
      notice := Some("Prompt \"" + t.name + "\" telah disalin ke AI chat");
    }

    /** `handleCopyTemplate`: what goes to the clipboard, nothing in preview
        mode. */
    method HandleCopyTemplate(t: AIPromptTemplate) returns (copied: Option<string>)
      ensures isPreview <==> copied.None?
      ensures !isPreview ==> copied == Some(t.prompt)
    {
      if isPreview {
        return None;
      }
      copied := Some(t.prompt);
    }

    /** `handleDeleteTemplate`: the templates with that id go, the rest stay
        in order; preview mode changes nothing. */
    method HandleDeleteTemplate(id: string)
      modifies this`templates
      ensures isPreview ==> templates == old(templates)
      ensures !isPreview ==> templates == Filter(old(templates), (t: AIPromptTemplate) => t.id != id)
      ensures forall t :: t in templates ==> t in old(templates)
      ensures !isPreview ==> forall t :: t in templates ==> t.id != id
    {
      if isPreview {
        return;
      }
      templates := Filter(templates, (t: AIPromptTemplate) => t.id != id);
    }
  }
}
