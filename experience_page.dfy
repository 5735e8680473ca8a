/**
 * app/admin/edit/experience/page.tsx: the experience entries, a draft for a
 * new entry posted to the experience route, and an entry being edited which
 * is sent to the per-id endpoint.
 */
module ExperiencePage {
  import opened Common
  import opened Content
  import opened ContentService
  import opened Editing
  import ExperienceRoute

  /** The inputs bound to `handleInputChange`, by their `name`. */
  datatype TextField = Title | Company | Period | Location | Thumbnail | Desc

  /** The member `name` names. */
  function FieldValue(e: Experience, f: TextField): string {
    match f
    case Title => e.title
    case Company => e.company
    case Period => e.period
    case Location => e.location
    case Thumbnail => e.thumbnail
    case Desc => e.desc
  }

  /** `{ ...prev, [name]: value }`: that member becomes `value`, every other member stays. */
  function SetField(e: Experience, f: TextField, value: string): (r: Experience)
    ensures FieldValue(r, f) == value
    ensures forall g :: g != f ==> FieldValue(r, g) == FieldValue(e, g)
    ensures r.id == e.id && r.skills == e.skills
  {
    match f
    case Title => e.(title := value)
    case Company => e.(company := value)
    case Period => e.(period := value)
    case Location => e.(location := value)
    case Thumbnail => e.(thumbnail := value)
    case Desc => e.(desc := value)
  }

  /**
   * The draft of a new entry holds every member but `id`; it is kept as an
   * entry whose `id` is never sent.
   */
  const EmptyDraft: Experience := Experience(0, "", "", "", "", "", [], "")

  /** The body `JSON.stringify(newExperience)` posts: no `id`, every other member present. */
  function DraftBody(d: Experience): (b: ExperienceRoute.ExperienceBody)
    ensures b.Fields? && b.id.None? && b.skills == Some(d.skills) && b.thumbnail == Some(d.thumbnail)
    ensures b.title == Some(d.title) && b.company == Some(d.company) && b.period == Some(d.period)
    ensures b.location == Some(d.location) && b.desc == Some(d.desc)
  {
    ExperienceRoute.Fields(None, Some(d.title), Some(d.company), Some(d.period), Some(d.location),
                           Some(d.desc), Some(d.skills), Some(d.thumbnail))
  }

  /** A draft whose five required members are filled in. */
  predicate Filled(d: Experience) {
    d.title != "" && d.company != "" && d.period != "" && d.location != "" && d.desc != ""
  }

  class ExperienceEditor {
    var experiences: seq<Experience>
    /** The error, which replaces the whole page. */
    var error: string
    var showAddForm: bool
    var editingExperience: Option<Experience>
    var newExperience: Experience

    /**
     * The page after its initial load; a failed load leaves the list empty
     * with the error "Error loading experiences".
     */
    constructor (load: Loaded<seq<Experience>>)
      ensures experiences == (if load.Loaded? then load.data else [])
      ensures error == (if load.Loaded? then "" else "Error loading experiences")
      ensures !showAddForm && editingExperience.None? && newExperience == EmptyDraft
    {
      experiences := if load.Loaded? then load.data else [];
      error := if load.Loaded? then "" else "Error loading experiences";
      showAddForm := false;
      editingExperience := None;
      newExperience := EmptyDraft;
    }

    /** `handleInputChange`: the entry being edited takes the value if there is one, the draft otherwise. */
    method InputChange(field: TextField, value: string)
      modifies this`editingExperience, this`newExperience
      ensures old(editingExperience).Some? ==>
                editingExperience == Some(SetField(old(editingExperience).value, field, value))
                && newExperience == old(newExperience)
      ensures old(editingExperience).None? ==>
                newExperience == SetField(old(newExperience), field, value) && editingExperience.None?
    {
      if editingExperience.Some? {
        editingExperience := Some(SetField(editingExperience.value, field, value));
      } else {
        newExperience := SetField(newExperience, field, value);
      }
    }

    /**
     * `handleSkillsChange`: the text is split on commas and trimmed into the
     * skills of the entry being edited if there is one, of the draft otherwise.
     */
    method SkillsChange(text: string)
      modifies this`editingExperience, this`newExperience
      ensures old(editingExperience).Some? ==>
                editingExperience == Some(old(editingExperience).value.(skills := CommaList(text)))
                && newExperience == old(newExperience)
      ensures old(editingExperience).None? ==>
                newExperience == old(newExperience).(skills := CommaList(text)) && editingExperience.None?
    {
      SetSkills(CommaList(text));
    }

    /** The state update of `handleSkillsChange`, once the text is split. */
    method SetSkills(skills: seq<string>)
      modifies this`editingExperience, this`newExperience
      ensures old(editingExperience).Some? ==>
                editingExperience == Some(old(editingExperience).value.(skills := skills))
                && newExperience == old(newExperience)
      ensures old(editingExperience).None? ==>
                newExperience == old(newExperience).(skills := skills) && editingExperience.None?
    {
      if editingExperience.Some? {
        editingExperience := Some(editingExperience.value.(skills := skills));
      } else {
        newExperience := newExperience.(skills := skills);
      }
    }

    /** The add button: shown only while nothing is being edited, it opens or closes the draft form. */
    method ToggleAddForm()
      requires editingExperience.None?
      modifies this`showAddForm
      ensures showAddForm == !old(showAddForm)
    {
      showAddForm := !showAddForm;
    }

    /** `handleEdit`: the form opens on entry `index` and the draft form closes. */
    method Edit(index: nat)
      requires index < |experiences|
      modifies this`editingExperience, this`showAddForm
      ensures editingExperience == Some(experiences[index]) && !showAddForm
    {
      editingExperience := Some(experiences[index]);
      showAddForm := false;
    }

    method CancelEdit()
      modifies this`editingExperience
      ensures editingExperience.None?
    {
      editingExperience := None;
    }

    /**
     * `handleUpdate`: the entry being edited is sent; on an ok answer every
     * local entry with its id is replaced by it and the form closes, otherwise
     * the list is kept and the error is "Failed to update experience".
     */
    method Update(reply: Reply) returns (sent: Option<Experience>)
      modifies this`experiences, this`editingExperience, this`error
      ensures sent == old(editingExperience)
      ensures sent.None? ==>
                experiences == old(experiences) && editingExperience.None? && error == old(error)
      ensures sent.Some? && reply == Responded(true) ==>
                && |experiences| == |old(experiences)|
                && (forall j :: 0 <= j < |experiences| ==>
                      experiences[j] == if old(experiences)[j].id == sent.value.id then sent.value else old(experiences)[j])
                && editingExperience.None? && error == old(error)
      ensures sent.Some? && reply != Responded(true) ==>
                && experiences == old(experiences) && editingExperience == old(editingExperience)
                && error == "Failed to update experience"
    {
      sent := editingExperience;
      if sent.None? {
        return;
      }
      var e := sent.value;
      if reply == Responded(true) {
        experiences := Lists.ReplaceWhere(experiences, (x: Experience) => x.id == e.id, e);
        editingExperience := None;
      } else {
        error := "Failed to update experience";
      }
    }

    /**
     * `handleSubmit`: the draft is posted; `answer` is the route's response, or
     * `None` when the request threw. A created entry, as the server stored it,
     * is appended and the draft is reset and hidden; any other outcome keeps
     * the list and sets the error "Failed to add experience".
     */
    method Submit(answer: Option<ExperienceRoute.PostResponse>) returns (sent: ExperienceRoute.ExperienceBody)
      modifies this`experiences, this`newExperience, this`showAddForm, this`error
      ensures sent == DraftBody(old(newExperience))
      ensures answer.Some? && answer.value.Created? ==>
                && experiences == old(experiences) + [answer.value.experience]
                && newExperience == EmptyDraft && !showAddForm && error == old(error)
      ensures !(answer.Some? && answer.value.Created?) ==>
                && experiences == old(experiences) && newExperience == old(newExperience)
                && showAddForm == old(showAddForm) && error == "Failed to add experience"
    {
      sent := DraftBody(newExperience);
      if answer.Some? && answer.value.Created? {
        experiences := experiences + [answer.value.experience];
        newExperience := EmptyDraft;
        showAddForm := false;
      } else {
        error := "Failed to add experience";
      }
    }
  }

  /**
   * A draft with its five required members filled in passes the route's
   * check, and the entry stored for it carries the draft's members and an
   * id above every stored id.
   */
  lemma FilledDraftIsCreated(d: ContentData, draft: Experience)
    requires Filled(draft)
    ensures ExperienceRoute.Complete(DraftBody(draft))
    ensures var e := AddExperienceDoc(d, ExperienceRoute.NewExperience(DraftBody(draft))).1;
            && e == draft.(id := e.id)
            && e.id >= 1 && (forall j :: 0 <= j < |d.experience| ==> d.experience[j].id < e.id)
            && (e.id - 1 == 0 || exists j :: 0 <= j < |d.experience| && d.experience[j].id == e.id - 1)
  {
    var b := DraftBody(draft);
    forall k | 0 <= k < |ExperienceRoute.RequiredFields|
      ensures !ExperienceRoute.Falsy(ExperienceRoute.Member(b, ExperienceRoute.RequiredFields[k]))
    {
    }
  }

  /** The draft the form is reset to is refused by the route, which names `title` first. */
  lemma EmptyDraftIsRefused()
    ensures !ExperienceRoute.Complete(DraftBody(EmptyDraft))
    ensures ExperienceRoute.Falsy(ExperienceRoute.Member(DraftBody(EmptyDraft), ExperienceRoute.RequiredFields[0]))
  {
    assert ExperienceRoute.Falsy(ExperienceRoute.Member(DraftBody(EmptyDraft), ExperienceRoute.RequiredFields[0]));
  }
}
