/**
 * app/admin/edit/testimonials/page.tsx: the testimonials list with one form
 * for adding or editing an entry; every change is saved by sending the whole
 * list.
 */
module TestimonialsPage {
  import opened Common
  import opened Lists
  import opened Content
  import opened Editing

  /** The form's input names. */
  datatype TestimonialField = Quote | Name | Title

  /** All three fields are filled in. */
  predicate Complete(t: Testimonial) {
    t.quote != "" && t.name != "" && t.title != ""
  }

  class TestimonialsEditor {
    var testimonials: seq<Testimonial>
    var editingIndex: Option<nat>
    var isAdding: bool
    var temp: Testimonial
    var message: Message

    /** The edited index, when there is one, is a position of the list. */
    ghost predicate Valid()
      reads this
    {
      editingIndex.Some? ==> editingIndex.value < |testimonials|
    }

    /** No form is open, so the list is shown with its edit and delete buttons. */
    predicate Listing()
      reads this
    {
      !isAdding && editingIndex.None?
    }

    /** The page after its initial load. */
    constructor (load: Loaded<seq<Testimonial>>)
      ensures Valid() && Listing()
      ensures testimonials == (if load.Loaded? then load.data else [])
      ensures temp == Testimonial("", "", "")
      ensures load.Loaded? ==> message == NoMessage
      ensures load.LoadNotOk? ==> message == Error("Failed to load testimonials data")
      ensures load.LoadThrown? ==> message == Error("Error loading testimonials data")
    {
      testimonials := if load.Loaded? then load.data else [];
      editingIndex := None;
      isAdding := false;
      temp := Testimonial("", "", "");
      message := match load
        case Loaded(_) => NoMessage
        case LoadNotOk => Error("Failed to load testimonials data")
        case LoadThrown => Error("Error loading testimonials data");
    }

    /** `handleEditClick`: the form opens on a copy of entry `index`. */
    method EditClick(index: nat)
      requires Valid() && Listing() && index < |testimonials|
      modifies this`editingIndex, this`temp, this`isAdding
      ensures Valid() && !Listing()
      ensures editingIndex == Some(index) && temp == testimonials[index] && !isAdding
    {
      editingIndex := Some(index);
      temp := testimonials[index];
      isAdding := false;
    }

    /** `handleAddClick`: the form opens empty, for a new entry. */
    method AddClick()
      requires Valid()
      modifies this`editingIndex, this`temp, this`isAdding
      ensures Valid() && !Listing()
      ensures isAdding && editingIndex.None? && temp == Testimonial("", "", "")
    {
      isAdding := true;
      editingIndex := None;
      temp := Testimonial("", "", "");
    }

    /** `handleInputChange`: one field of the form takes the typed value. */
    method InputChange(field: TestimonialField, value: string)
      modifies this`temp
      ensures field == Quote ==> temp == old(temp).(quote := value)
      ensures field == Name ==> temp == old(temp).(name := value)
      ensures field == Title ==> temp == old(temp).(title := value)
    {
      match field
      case Quote => temp := temp.(quote := value);
      case Name => temp := temp.(name := value);
      case Title => temp := temp.(title := value);
    }

    /** `handleCancel`: the form closes and the list is left as it was. */
    method Cancel()
      requires Valid()
      modifies this`editingIndex, this`isAdding
      ensures Valid() && Listing()
    {
      editingIndex := None;
      isAdding := false;
    }

    /**
     * `handleSave`: an incomplete form is refused without a request. Otherwise
     * the list with the form's entry appended or put in place is sent; only an
     * ok answer makes it the page's list and closes the form. Saving with no
     * form open is the page's "Invalid state" and sends nothing.
     */
    method Save(reply: Reply) returns (sent: Option<seq<Testimonial>>)
      requires Valid()
      modifies this`testimonials, this`editingIndex, this`isAdding, this`message
      ensures Valid()
      ensures !Complete(temp) ==> sent.None? && message == Error("All fields are required")
      ensures Complete(temp) ==> sent == SaveTarget(old(testimonials), old(isAdding), old(editingIndex), temp)
      ensures Complete(temp) && sent.None? ==> message == Error("Error updating testimonials")
      ensures sent.Some? ==>
                message == ReplyMessage(reply, "Testimonials updated successfully!", "Failed to update testimonials",
                                        "Error updating testimonials")
      ensures sent.Some? && reply == Responded(true) ==> testimonials == sent.value && editingIndex.None? && !isAdding
      ensures !(sent.Some? && reply == Responded(true)) ==>
                testimonials == old(testimonials) && editingIndex == old(editingIndex) && isAdding == old(isAdding)
    {
      if temp.quote == "" || temp.name == "" || temp.title == "" {
        message := Error("All fields are required");
        return None;
      }
      message := NoMessage;
      sent := SaveTarget(testimonials, isAdding, editingIndex, temp);
      if sent.None? {
        message := Error("Error updating testimonials");
        return;
      }
      message := ReplyMessage(reply, "Testimonials updated successfully!", "Failed to update testimonials",
                              "Error updating testimonials");
      if reply == Responded(true) {
        testimonials := sent.value;
        editingIndex := None;
        isAdding := false;
      }
    }

    /**
     * `handleDelete`: after confirmation the list without entry `index` is
     * sent, and it becomes the page's list only on an ok answer.
     */
    method Delete(index: nat, confirmed: bool, reply: Reply) returns (sent: Option<seq<Testimonial>>)
      requires Valid() && Listing()
      modifies this`testimonials, this`message
      ensures Valid() && Listing()
      ensures !confirmed ==> sent.None? && testimonials == old(testimonials) && message == old(message)
      ensures confirmed ==> sent == Some(RemoveAt(old(testimonials), index))
      ensures confirmed ==>
                message == ReplyMessage(reply, "Testimonial deleted successfully!", "Failed to delete testimonial",
                                        "Error deleting testimonial")
      ensures testimonials == if confirmed && reply == Responded(true) then sent.value else old(testimonials)
    {
      if !confirmed {
        return None;
      }
      var updated := RemoveAt(testimonials, index);
      sent := Some(updated);
      message := ReplyMessage(reply, "Testimonial deleted successfully!", "Failed to delete testimonial",
                              "Error deleting testimonial");
      if reply == Responded(true) {
        testimonials := updated;
      }
    }
  }
}
