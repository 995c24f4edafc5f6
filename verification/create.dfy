/**
 * The form that creates a work order: the submit check, the fields it hands to the store, tag
 * selection, and the tag suggestions that arrive for the description.
 */
module Create {
  import opened Options
  import opened Types
  import opened Workflow
  import opened Store
  import Seed
  import Sequences
  import Text

  /** `handleSubmit` refuses an empty title or description; it does not trim, so text made of
      spaces passes. */
  predicate Submittable(title: string, description: string)
  {
    title != "" && description != ""
  }

  lemma SubmitCheck(title: string, description: string)
    ensures Submittable(title, description) <==> |title| > 0 && |description| > 0
    ensures Submittable(" ", " ")
    ensures !Submittable("", description) && !Submittable(title, "")
  {
  }

  /** The fields an accepted submission hands to `addWorkOrder`: a New order with the chosen
      tags and no unit, tenant, assignee or vendor. */
  function NewOrderFields(title: string, description: string, propertyId: int, priority: Priority,
                          tags: seq<string>): (f: OrderFields)
    ensures f.status == New && f.tags == Some(tags)
    ensures f.assignedToId == None && f.vendorId == None && f.unitNumber == None && f.tenant == None
    ensures f.title == title && f.description == description && f.propertyId == propertyId && f.priority == priority
  {
    OrderFields(title, description, New, priority, propertyId, None, None, None, None, Some(tags))
  }

  /** An order created from the form starts New with a single entry and no assignee, so it
      satisfies the exclusive-assignee invariant. */
  lemma CreatedFromFormIsExclusive(title: string, description: string, propertyId: int, priority: Priority,
                                   tags: seq<string>, id: int, currentUserId: int, now: string)
    ensures var wo := CreatedOrder(NewOrderFields(title, description, propertyId, priority, tags), id, currentUserId, now);
      ExclusiveAssignee(wo) && wo.status == New && wo.assignedToId == None && wo.vendorId == None
  {
  }

  /** `toggleTag` on the selected tags: a selected tag is removed wherever it occurs, an
      unselected one is appended. */
  function Toggled(tags: seq<string>, tag: string): (r: seq<string>)
    ensures tag in tags ==> tag !in r && forall t :: t in r <==> t in tags && t != tag
    ensures tag in tags ==> Sequences.IsSubsequence(r, tags)
    ensures tag in tags ==> forall t :: multiset(r)[t] == if t != tag then multiset(tags)[t] else 0
    ensures tag !in tags ==> r == tags + [tag]
  {
    if tag in tags then
      Sequences.FilterCount(tags, t => t != tag);
      Sequences.FilterMembers(tags, t => t != tag);
      Sequences.FilterIsSubsequence(tags, t => t != tag);
      Sequences.Filter(tags, t => t != tag)
    else tags + [tag]
  }

  /** Toggling the same tag twice restores whether it is selected. Starting from an unselected
      tag it restores the list exactly; starting from a selected one it drops every copy of the
      tag and appends a single one at the end. */
  lemma ToggleTwice(tags: seq<string>, tag: string)
    ensures (tag in Toggled(Toggled(tags, tag), tag)) <==> (tag in tags)
    ensures tag !in tags ==> Toggled(Toggled(tags, tag), tag) == tags
    ensures tag in tags ==> Toggled(Toggled(tags, tag), tag) == Toggled(tags, tag) + [tag]
  {
    if tag !in tags {
      var p := (t: string) => t != tag;
      Sequences.FilterConcat(tags, [tag], p);
      Sequences.FilterKeepsAll(tags, p);
      assert Sequences.Filter([tag], p) == [] by {
        Sequences.FilterCons(tag, [], p);
        assert [tag] + [] == [tag];
      }
    }
  }

  /** `toggleTag` on the suggestions: the tag is dropped from them. */
  function DropSuggestion(suggested: seq<string>, tag: string): (r: seq<string>)
    ensures forall t :: t in r <==> t in suggested && t != tag
    ensures forall t :: multiset(r)[t] == if t != tag then multiset(suggested)[t] else 0
    ensures Sequences.IsSubsequence(r, suggested)
  {
    Sequences.FilterCount(suggested, t => t != tag);
    Sequences.FilterMembers(suggested, t => t != tag);
    Sequences.FilterIsSubsequence(suggested, t => t != tag);
    Sequences.Filter(suggested, t => t != tag)
  }

  /** The suggestions that `handleGenerateTags` keeps, as written: the generated tags that were
      not selected when the request was made. The selection it checks is the one captured when
      the request was scheduled, not the one current when the answer arrives. */
  function SuggestionsAsWritten(generated: seq<string>, tagsAtRequest: seq<string>): (r: seq<string>)
    ensures forall t :: t in r <==> t in generated && t !in tagsAtRequest
    ensures forall t :: multiset(r)[t] == if t !in tagsAtRequest then multiset(generated)[t] else 0
    ensures Sequences.IsSubsequence(r, generated)
  {
    Sequences.FilterCount(generated, t => t !in tagsAtRequest);
    Sequences.FilterIsSubsequence(generated, t => t !in tagsAtRequest);
    Sequences.FilterMembers(generated, t => t !in tagsAtRequest);
    Sequences.Filter(generated, t => t !in tagsAtRequest)
  }

  /** A tag selected while the request is pending comes back as a suggestion: nothing selected
      when the request was made, "Plumbing" selected since, and the service proposes "Plumbing". */
  lemma StaleSuggestion()
    ensures var current := Toggled([], "Plumbing");
      "Plumbing" in current && "Plumbing" in SuggestionsAsWritten(["Plumbing"], [])
      && !Disjoint(SuggestionsAsWritten(["Plumbing"], []), current)
  {
  }

  /** The suggestions kept when the answer is checked against the selection current when it
      arrives: exactly the generated tags not selected now. */
  function Suggestions(generated: seq<string>, tags: seq<string>): (r: seq<string>)
    ensures forall t :: t in r <==> t in generated && t !in tags
    ensures forall t :: multiset(r)[t] == if t !in tags then multiset(generated)[t] else 0
    ensures Sequences.IsSubsequence(r, generated)
    ensures Disjoint(r, tags)
  {
    Sequences.FilterCount(generated, t => t !in tags);
    Sequences.FilterMembers(generated, t => t !in tags);
    Sequences.FilterIsSubsequence(generated, t => t !in tags);
    Sequences.Filter(generated, t => t !in tags)
  }

  /** No suggested tag is also selected. */
  predicate Disjoint(suggested: seq<string>, tags: seq<string>)
  {
    forall t :: t in suggested ==> t !in tags
  }

  /** Toggling a tag keeps the suggestions apart from the selection. */
  lemma ToggleKeepsDisjoint(suggested: seq<string>, tags: seq<string>, tag: string)
    requires Disjoint(suggested, tags)
    ensures Disjoint(DropSuggestion(suggested, tag), Toggled(tags, tag))
  {
  }

  /** The debounced effect on the description: text longer than 20 UTF-16 code units schedules
      a tag request; shorter text clears the suggestions. */
  predicate SchedulesTagRequest(description: string)
  {
    Text.Utf16Length(description) > 20
  }

  /** Characters beyond the Basic Multilingual Plane count twice: eleven U+1F600 characters
      already schedule a request, while ten do not. */
  lemma AstralCharactersCountTwice()
    ensures var eleven := seq(11, _ => '\U{1F600}');
      |eleven| == 11 && Text.Utf16Length(eleven) == 22 && SchedulesTagRequest(eleven)
    ensures !SchedulesTagRequest(seq(10, _ => '\U{1F600}'))
  {
    var eleven := seq(11, _ => '\U{1F600}');
    assert forall i :: 0 <= i < |eleven| ==> eleven[i] as int > 0xFFFF;
    var ten := seq(10, _ => '\U{1F600}');
    assert forall i :: 0 <= i < |ten| ==> ten[i] as int > 0xFFFF;
  }

  /** The create form: its fields, the selected tags and the pending suggestions. */
  class CreateForm {
    const store: WorkOrderStore
    const currentUser: User
    var title: string
    var description: string
    var propertyId: int
    var priority: Priority
    var tags: seq<string>
    var suggestedTags: seq<string>

    /** No suggested tag is also selected. */
    predicate Valid()
      reads this`tags, this`suggestedTags
    {
      Disjoint(suggestedTags, tags)
    }

    /** An empty form on the first property with Medium priority. */
    constructor(store: WorkOrderStore, currentUser: User)
      ensures this.store == store && this.currentUser == currentUser
      ensures title == "" && description == "" && propertyId == Seed.Properties[0].id && priority == Medium
      ensures tags == [] && suggestedTags == []
      ensures Valid()
    {
      this.store := store;
      this.currentUser := currentUser;
      title := "";
      description := "";
      propertyId := Seed.Properties[0].id;
      priority := Medium;
      tags := [];
      suggestedTags := [];
    }

    method EditTitle(text: string)
      modifies this`title
      ensures title == text
    {
      title := text;
    }

    /** A generated title replaces the current one unless it is empty. */
    method TitleGenerated(generated: string)
      modifies this`title
      ensures title == if generated != "" then generated else old(title)
    {
      if generated != "" {
        title := generated;
      }
    }

    /** Editing the description: at 20 UTF-16 code units or fewer the suggestions are
        cleared; longer text schedules a new request and leaves them as they are. */
    method EditDescription(text: string)
      requires Valid()
      modifies this`description, this`suggestedTags
      ensures description == text
      ensures suggestedTags == if SchedulesTagRequest(text) then old(suggestedTags) else []
      ensures Valid()
    {
      description := text;
      if Text.Utf16Length(text) <= 20 {
        suggestedTags := [];
      }
    }

    method ChooseProperty(id: int)
      modifies this`propertyId
      ensures propertyId == id
    {
      propertyId := id;
    }

    method ChoosePriority(p: Priority)
      modifies this`priority
      ensures priority == p
    {
      priority := p;
    }

    /** The answer of the tag service, checked against the tags selected now. */
    method ReceiveSuggestions(generated: seq<string>)
      modifies this`suggestedTags
      ensures suggestedTags == Suggestions(generated, tags)
      ensures Valid()
    {
      suggestedTags := Suggestions(generated, tags);
    }

    /** Selecting or deselecting a tag, from either list. */
    method ToggleTag(tag: string)
      requires Valid()
      modifies this`tags, this`suggestedTags
      ensures tags == Toggled(old(tags), tag)
      ensures suggestedTags == DropSuggestion(old(suggestedTags), tag)
      ensures Valid()
    {
      ToggleKeepsDisjoint(suggestedTags, tags, tag);
      tags := Toggled(tags, tag);
      suggestedTags := DropSuggestion(suggestedTags, tag);
    }

    /** `handleSubmit`: refuses an empty title or description; otherwise adds a New order with
        the form's fields and tags. */
    method Submit(now: string) returns (accepted: bool)
      requires store.Valid()
      modifies store`workOrders
      ensures accepted <==> Submittable(title, description)
      ensures store.Valid()
      ensures store.workOrders == if accepted
        then ApplyAll(old(store.workOrders),
                      AddWorkOrderPlan(store.rendered, NewOrderFields(title, description, propertyId, priority, tags),
                                       currentUser.id, now))
        else old(store.workOrders)
    {
      if title == "" || description == "" {
        return false;
      }
      store.AddWorkOrder(NewOrderFields(title, description, propertyId, priority, tags), currentUser.id, now);
      return true;
    }
  }
}
