/**
 * app/admin/edit/projects/page.tsx: the projects list with one form for
 * adding or editing a project. The tech stack is typed as names and stored as
 * icon paths; a chosen image is uploaded before the list is saved.
 */
module ProjectsPage {
  import opened Common
  import opened Lists
  import opened Content
  import opened TechIcons
  import opened Editing
  import Upload

  /** The form's text inputs. */
  datatype ProjectField = Title | Des | Link | SourceCode

  /** The image path read from an upload answered with status 200, when a file was chosen. */
  function UploadedImage(chosen: bool, upload: UploadReply): (r: Option<string>)
    ensures r.Some? <==> chosen && upload.Answered? && upload.response.Uploaded?
    ensures r.Some? ==> r.value == upload.response.filepath
  {
    if chosen && upload.Answered? && Upload.Status(upload.response) == 200 then ReadUploadedPath(upload.response)
    else None
  }

  /** The largest id in a non-empty list. */
  function MaxId(ps: seq<Project>): (m: int)
    requires ps != []
    ensures forall j :: 0 <= j < |ps| ==> ps[j].id <= m
    ensures exists j :: 0 <= j < |ps| && ps[j].id == m
  {
    if |ps| == 1 then ps[0].id
    else
      var m := MaxId(ps[1..]);
      assert forall j :: 1 <= j < |ps| ==> ps[j] == ps[1..][j - 1];
      if ps[0].id >= m then ps[0].id else m
  }

  /** The id a new project gets: one more than the largest id, or 1 for an empty list. */
  function NextProjectId(ps: seq<Project>): (r: int)
    ensures ps == [] ==> r == 1
    ensures forall j :: 0 <= j < |ps| ==> ps[j].id < r
    ensures ps != [] ==> exists j :: 0 <= j < |ps| && ps[j].id == r - 1
  {
    if |ps| > 0 then MaxId(ps) + 1 else 1
  }

  /** The form a new project starts from. */
  function NewProjectForm(ps: seq<Project>): Project {
    Project(NextProjectId(ps), "", "", "", [], "", "")
  }

  /**
   * The record put in the list: the form, with the uploaded path as its image
   * when a file was uploaded, and `/Pro.jpg` for a new project that has no
   * image at all.
   */
  function SavedProject(form: Project, adding: bool, uploaded: Option<string>): (p: Project)
    ensures p == form.(img := p.img)
    ensures uploaded.Some? ==> p.img == uploaded.value
    ensures uploaded.None? ==> p.img == (if adding && form.img == "" then "/Pro.jpg" else form.img)
  {
    if uploaded.Some? then form.(img := uploaded.value)
    else if adding && form.img == "" then form.(img := "/Pro.jpg")
    else form
  }

  /** The form of a reopened project, tech stack converted back, is the project itself. */
  lemma ReopenedFormIsProject(p: Project)
    requires forall i :: 0 <= i < |p.iconLists| ==> Canonical(p.iconLists[i])
    ensures p.(iconLists := ConvertTechNamesToIcons(TechNamesText(p.iconLists))) == p
  {
    IconsRoundTrip(p.iconLists);
  }

  /** Saving a listed project as it is, with no upload, sends the list unchanged. */
  lemma SaveUnchangedProject(projects: seq<Project>, k: nat)
    requires k < |projects|
    ensures SaveTarget(projects, false, Some(k), SavedProject(projects[k], false, None)) == Some(projects)
  {
    assert projects[k := projects[k]] == projects;
  }

  /**
   * Opening a project for editing and saving it with nothing changed and no
   * new image sends the list as it was, when every icon of the project is
   * one the editor produces.
   */
  lemma ReopenedProjectSavesUnchanged(projects: seq<Project>, k: nat)
    requires k < |projects|
    requires forall i :: 0 <= i < |projects[k].iconLists| ==> Canonical(projects[k].iconLists[i])
    ensures var p := projects[k];
            var form := p.(iconLists := ConvertTechNamesToIcons(TechNamesText(p.iconLists)));
            SaveTarget(projects, false, Some(k), SavedProject(form, false, None)) == Some(projects)
  {
    ReopenedFormIsProject(projects[k]);
    SaveUnchangedProject(projects, k);
  }

  /**
   * The outcome of a save that passed the checks, from the list and form
   * state before it to the state after it: a failed upload sends nothing;
   * otherwise the list with the saved project is sent (nothing when no form
   * was open), and only an ok answer makes it the page's list and closes
   * the form.
   */
  predicate Submitted(
    projects0: seq<Project>, adding0: bool, editing0: Option<nat>, form: Project, uploaded: Option<string>, reply: Reply,
    uploadSent: bool, sent: Option<seq<Project>>, projects: seq<Project>, adding: bool, editing: Option<nat>, message: Message)
    requires editing0.Some? ==> editing0.value < |projects0|
  {
    && (uploadSent && uploaded.None? ==> sent.None? && message == Error("Error updating projects"))
    && (!(uploadSent && uploaded.None?) ==> sent == SaveTarget(projects0, adding0, editing0, SavedProject(form, adding0, uploaded)))
    && (sent.None? && !(uploadSent && uploaded.None?) ==> message == Error("Error updating projects"))
    && (sent.Some? ==>
          message == ReplyMessage(reply, "Projects updated successfully!", "Failed to update projects", "Error updating projects"))
    && (sent.Some? && reply == Responded(true) ==> projects == sent.value && editing.None? && !adding)
    && (!(sent.Some? && reply == Responded(true)) ==> projects == projects0 && editing == editing0 && adding == adding0)
  }

  class ProjectsEditor {
    var projects: seq<Project>
    var editingIndex: Option<nat>
    var isAdding: bool
    var temp: Project
    /** The tech-stack field as typed. */
    var rawTechStack: string
    /** Whether a file has been chosen; the page never clears it. */
    var imageChosen: bool
    var message: Message

    ghost predicate Valid()
      reads this
    {
      editingIndex.Some? ==> editingIndex.value < |projects|
    }

    /** No form is open, so the list is shown with its edit and delete buttons. */
    predicate Listing()
      reads this
    {
      !isAdding && editingIndex.None?
    }

    constructor (load: Loaded<seq<Project>>)
      ensures Valid() && Listing() && !imageChosen
      ensures projects == (if load.Loaded? then load.data else [])
      ensures temp == Project(0, "", "", "", [], "", "") && rawTechStack == ""
      ensures load.Loaded? ==> message == NoMessage
      ensures load.LoadNotOk? ==> message == Error("Failed to load projects data")
      ensures load.LoadThrown? ==> message == Error("Error loading projects data")
    {
      projects := if load.Loaded? then load.data else [];
      editingIndex := None;
      isAdding := false;
      temp := Project(0, "", "", "", [], "", "");
      rawTechStack := "";
      imageChosen := false;
      message := match load
        case Loaded(_) => NoMessage
        case LoadNotOk => Error("Failed to load projects data")
        case LoadThrown => Error("Error loading projects data");
    }

    /** `handleEditClick`: the form opens on project `index`, its icons shown as names. */
    method EditClick(index: nat)
      requires Valid() && Listing() && index < |projects|
      modifies this`editingIndex, this`temp, this`rawTechStack, this`isAdding
      ensures Valid() && !Listing()
      ensures editingIndex == Some(index) && !isAdding
      ensures temp == projects[index] && rawTechStack == TechNamesText(projects[index].iconLists)
    {
      editingIndex := Some(index);
      temp := projects[index];
      rawTechStack := TechNamesText(projects[index].iconLists);
      isAdding := false;
    }

    /** `handleAddClick`: an empty form whose id is one past the largest. */
    method AddClick()
      requires Valid()
      modifies this`editingIndex, this`temp, this`rawTechStack, this`isAdding
      ensures Valid() && !Listing()
      ensures isAdding && editingIndex.None?
      ensures temp == NewProjectForm(projects) && rawTechStack == ""
      ensures forall j :: 0 <= j < |projects| ==> projects[j].id < temp.id
    {
      isAdding := true;
      editingIndex := None;
      temp := NewProjectForm(projects);
      rawTechStack := "";
    }

    /** `handleInputChange`. */
    method InputChange(field: ProjectField, value: string)
      modifies this`temp
      ensures field == Title ==> temp == old(temp).(title := value)
      ensures field == Des ==> temp == old(temp).(des := value)
      ensures field == Link ==> temp == old(temp).(link := value)
      ensures field == SourceCode ==> temp == old(temp).(sourceCode := value)
    {
      match field
      case Title => temp := temp.(title := value);
      case Des => temp := temp.(des := value);
      case Link => temp := temp.(link := value);
      case SourceCode => temp := temp.(sourceCode := value);
    }

    /** `handleTechStackInput`: the text is kept and converted at once. */
    method TechStackInput(text: string)
      modifies this`temp, this`rawTechStack
      ensures rawTechStack == text
      ensures temp == old(temp).(iconLists := ConvertTechNamesToIcons(text))
    {
      rawTechStack := text;
      temp := temp.(iconLists := ConvertTechNamesToIcons(text));
    }

    /** `handleImageChange` with a file: it is kept for the next save. */
    method ImageChange()
      modifies this`imageChosen
      ensures imageChosen
    {
      imageChosen := true;
    }

    method Cancel()
      requires Valid()
      modifies this`editingIndex, this`isAdding
      ensures Valid() && Listing()
    {
      editingIndex := None;
      isAdding := false;
    }

    /**
     * `handleSave`: a form without title or description is refused. Otherwise
     * the tech-stack text is converted into the form (this stays even when the
     * save fails), a chosen image is uploaded first (any failure there is
     * "Error updating projects"), and the list with the saved project
     * appended or put in place is sent; only an ok answer makes it the page's
     * list and closes the form.
     */
    method Save(upload: UploadReply, reply: Reply) returns (uploadSent: bool, sent: Option<seq<Project>>)
      requires Valid()
      modifies this`projects, this`editingIndex, this`isAdding, this`temp, this`message
      ensures Valid()
      ensures old(temp.title) == "" || old(temp.des) == "" ==>
                && !uploadSent && sent.None? && temp == old(temp)
                && projects == old(projects) && editingIndex == old(editingIndex) && isAdding == old(isAdding)
                && message == Error("Title and description are required")
      ensures old(temp.title) != "" && old(temp.des) != "" ==>
                && temp == old(temp).(iconLists := ConvertTechNamesToIcons(rawTechStack))
                && uploadSent == imageChosen
                && Submitted(old(projects), old(isAdding), old(editingIndex), temp, UploadedImage(imageChosen, upload), reply,
                             uploadSent, sent, projects, isAdding, editingIndex, message)
    {
      if temp.title == "" || temp.des == "" {
        message := Error("Title and description are required");
        return false, None;
      }
      uploadSent, sent := SaveWithIcons(ConvertTechNamesToIcons(rawTechStack), upload, reply);
    }

    /** The part of `handleSave` after the checks, with the icon list the tech-stack text converts to. */
    method SaveWithIcons(icons: seq<string>, upload: UploadReply, reply: Reply) returns (uploadSent: bool, sent: Option<seq<Project>>)
      requires Valid()
      modifies this`projects, this`editingIndex, this`isAdding, this`temp, this`message
      ensures Valid()
      ensures temp == old(temp).(iconLists := icons)
      ensures uploadSent == imageChosen
      ensures Submitted(old(projects), old(isAdding), old(editingIndex), temp, UploadedImage(imageChosen, upload), reply,
                        uploadSent, sent, projects, isAdding, editingIndex, message)
    {
      temp := temp.(iconLists := icons);
      uploadSent, sent := Submit(upload, reply);
    }

    /**
     * What follows the checks in `handleSave`: a chosen image is uploaded
     * (any failure there is "Error updating projects"), then the list with
     * the saved project appended or put in place is sent.
     */
    method Submit(upload: UploadReply, reply: Reply) returns (uploadSent: bool, sent: Option<seq<Project>>)
      requires Valid()
      modifies this`projects, this`editingIndex, this`isAdding, this`message
      ensures Valid()
      ensures uploadSent == imageChosen
      ensures Submitted(old(projects), old(isAdding), old(editingIndex), temp, UploadedImage(imageChosen, upload), reply,
                        uploadSent, sent, projects, isAdding, editingIndex, message)
    {
      uploadSent := imageChosen;
      var uploaded := UploadedImage(imageChosen, upload);
      if imageChosen && uploaded.None? {
        message := Error("Error updating projects");
        return uploadSent, None;
      }
      sent := Send(SavedProject(temp, isAdding, uploaded), reply);
    }

    /** The list with `item` appended or put in place is sent; an ok answer makes it the page's list. */
    method Send(item: Project, reply: Reply) returns (sent: Option<seq<Project>>)
      requires Valid()
      modifies this`projects, this`editingIndex, this`isAdding, this`message
      ensures Valid()
      ensures sent == SaveTarget(old(projects), old(isAdding), old(editingIndex), item)
      ensures sent.None? ==> message == Error("Error updating projects")
      ensures sent.Some? ==>
                message == ReplyMessage(reply, "Projects updated successfully!", "Failed to update projects", "Error updating projects")
      ensures sent.Some? && reply == Responded(true) ==> projects == sent.value && editingIndex.None? && !isAdding
      ensures !(sent.Some? && reply == Responded(true)) ==>
                projects == old(projects) && editingIndex == old(editingIndex) && isAdding == old(isAdding)
    {
      sent := SaveTarget(projects, isAdding, editingIndex, item);
      if sent.None? {
        message := Error("Error updating projects");
        return;
      }
      message := ReplyMessage(reply, "Projects updated successfully!", "Failed to update projects", "Error updating projects");
      if reply == Responded(true) {
        projects := sent.value;
        editingIndex := None;
        isAdding := false;
      }
    }

    /**
     * `handleDelete`: after confirmation the list without project `index` is
     * sent, and it becomes the page's list only on an ok answer.
     */
    method Delete(index: nat, confirmed: bool, reply: Reply) returns (sent: Option<seq<Project>>)
      requires Valid() && Listing()
      modifies this`projects, this`message
      ensures Valid() && Listing()
      ensures !confirmed ==> sent.None? && projects == old(projects) && message == old(message)
      ensures confirmed ==> sent == Some(RemoveAt(old(projects), index))
      ensures confirmed ==>
                message == ReplyMessage(reply, "Project deleted successfully!", "Failed to delete project", "Error deleting project")
      ensures projects == if confirmed && reply == Responded(true) then sent.value else old(projects)
    {
      if !confirmed {
        return None;
      }
      var updated := RemoveAt(projects, index);
      sent := Some(updated);
      message := ReplyMessage(reply, "Project deleted successfully!", "Failed to delete project", "Error deleting project");
      if reply == Responded(true) {
        projects := updated;
      }
    }
  }
}
