/**
 * app/admin/edit/about/page.tsx: the about section as one record, with a
 * list of expertise items edited locally through one form, a profile image
 * uploaded on selection, and one request that saves the whole record.
 */
module AboutPage {
  import opened Common
  import opened Text
  import opened Lists
  import opened Editing
  import Upload

  datatype ExpertiseItem = ExpertiseItem(icon: string, title: string, description: string)

  datatype AboutData = AboutData(
    mainText: string, profileImage: string, jobTitle: string, closingText: string,
    expertiseItems: seq<ExpertiseItem>)

  /** The record's text inputs. */
  datatype AboutField = MainText | JobTitle | ClosingText

  /** The item form's inputs. */
  datatype ItemField = Icon | ItemTitle | Description

  /** The selected file, as far as the page looks at it. */
  datatype ImageFile = ImageFile(size: nat, mimeType: string)

  /** 2 MB, the largest image the page uploads. */
  const MaxImageSize: nat := 2 * 1024 * 1024

  /** The form a new expertise item starts from. */
  const NewItem: ExpertiseItem := ExpertiseItem("FaRegLightbulb", "", "")

  /** Why the page refuses a selected file before uploading it, if it does. */
  function FileProblem(file: ImageFile): (r: Option<string>)
    ensures r.None? <==> file.size <= MaxImageSize && StartsWith(file.mimeType, "image/")
    ensures file.size > MaxImageSize ==> r == Some("Image must be less than 2MB")
    ensures file.size <= MaxImageSize && !StartsWith(file.mimeType, "image/") ==> r == Some("Please upload an image file")
  {
    if file.size > MaxImageSize then Some("Image must be less than 2MB")
    else if !StartsWith(file.mimeType, "image/") then Some("Please upload an image file")
    else None
  }

  class AboutEditor {
    var about: AboutData
    var editingItemIndex: Option<nat>
    var isAddingItem: bool
    var tempItem: ExpertiseItem
    var message: Message

    ghost predicate Valid()
      reads this
    {
      editingItemIndex.Some? ==> editingItemIndex.value < |about.expertiseItems|
    }

    /** No item form is open, so the items are shown with their edit and delete buttons. */
    predicate Listing()
      reads this
    {
      !isAddingItem && editingItemIndex.None?
    }

    constructor (load: Loaded<AboutData>)
      ensures Valid() && Listing()
      ensures about == (if load.Loaded? then load.data else AboutData("", "", "", "", []))
      ensures tempItem == ExpertiseItem("", "", "")
      ensures load.Loaded? ==> message == NoMessage
      ensures load.LoadNotOk? ==> message == Error("Failed to load about data")
      ensures load.LoadThrown? ==> message == Error("Error loading about data")
    {
      about := if load.Loaded? then load.data else AboutData("", "", "", "", []);
      editingItemIndex := None;
      isAddingItem := false;
      tempItem := ExpertiseItem("", "", "");
      message := match load
        case Loaded(_) => NoMessage
        case LoadNotOk => Error("Failed to load about data")
        case LoadThrown => Error("Error loading about data");
    }

    /** `handleInputChange`: one text field of the record takes the typed value. */
    method InputChange(field: AboutField, value: string)
      requires Valid()
      modifies this`about
      ensures Valid()
      ensures field == MainText ==> about == old(about).(mainText := value)
      ensures field == JobTitle ==> about == old(about).(jobTitle := value)
      ensures field == ClosingText ==> about == old(about).(closingText := value)
    {
      match field
      case MainText => about := about.(mainText := value);
      case JobTitle => about := about.(jobTitle := value);
      case ClosingText => about := about.(closingText := value);
    }

    /** `handleExpertiseItemChange`. */
    method ItemChange(field: ItemField, value: string)
      modifies this`tempItem
      ensures field == Icon ==> tempItem == old(tempItem).(icon := value)
      ensures field == ItemTitle ==> tempItem == old(tempItem).(title := value)
      ensures field == Description ==> tempItem == old(tempItem).(description := value)
    {
      match field
      case Icon => tempItem := tempItem.(icon := value);
      case ItemTitle => tempItem := tempItem.(title := value);
      case Description => tempItem := tempItem.(description := value);
    }

    /**
     * `handleSave`: an empty main text is refused without a request;
     * otherwise the whole record is sent. The page's record is the same
     * whatever the answer.
     */
    method Save(reply: Reply) returns (sent: Option<AboutData>)
      modifies this`message
      ensures about.mainText == "" ==> sent.None? && message == Error("Main text is required")
      ensures about.mainText != "" ==>
                && sent == Some(about)
                && message == ReplyMessage(reply, "About section updated successfully!", "Failed to update about section",
                                           "Error updating about section")
    {
      if about.mainText == "" {
        message := Error("Main text is required");
        return None;
      }
      sent := Some(about);
      message := ReplyMessage(reply, "About section updated successfully!", "Failed to update about section",
                              "Error updating about section");
    }

    /** `handleAddExpertiseItem`. */
    method AddItem()
      requires Valid()
      modifies this`isAddingItem, this`editingItemIndex, this`tempItem
      ensures Valid() && !Listing()
      ensures isAddingItem && editingItemIndex.None? && tempItem == NewItem
    {
      isAddingItem := true;
      editingItemIndex := None;
      tempItem := NewItem;
    }

    /** `handleEditExpertiseItem`: the form opens on item `index`. */
    method EditItem(index: nat)
      requires Valid() && Listing() && index < |about.expertiseItems|
      modifies this`isAddingItem, this`editingItemIndex, this`tempItem
      ensures Valid() && !Listing()
      ensures editingItemIndex == Some(index) && tempItem == about.expertiseItems[index] && !isAddingItem
    {
      editingItemIndex := Some(index);
      tempItem := about.expertiseItems[index];
      isAddingItem := false;
    }

    /** `handleDeleteExpertiseItem`: after confirmation item `index` leaves the local record. */
    method DeleteItem(index: nat, confirmed: bool)
      requires Valid() && Listing()
      modifies this`about, this`message
      ensures Valid() && Listing()
      ensures !confirmed ==> about == old(about) && message == old(message)
      ensures confirmed ==>
                && about == old(about).(expertiseItems := RemoveAt(old(about).expertiseItems, index))
                && message == Success("Expertise item deleted")
    {
      if !confirmed {
        return;
      }
      about := about.(expertiseItems := RemoveAt(about.expertiseItems, index));
      message := Success("Expertise item deleted");
    }

    method CancelItem()
      requires Valid()
      modifies this`isAddingItem, this`editingItemIndex
      ensures Valid() && Listing()
    {
      editingItemIndex := None;
      isAddingItem := false;
    }

    /**
     * `handleSaveExpertiseItem`: an item without title or description is
     * refused; otherwise it is appended or put in place in the local record
     * (with no form open the items stay as they are, yet the page still
     * reports an update), and the form closes.
     */
    method SaveItem()
      requires Valid()
      modifies this`about, this`isAddingItem, this`editingItemIndex, this`message
      ensures Valid()
      ensures tempItem.title == "" || tempItem.description == "" ==>
                && about == old(about) && isAddingItem == old(isAddingItem) && editingItemIndex == old(editingItemIndex)
                && message == Error("Title and description are required for expertise items")
      ensures tempItem.title != "" && tempItem.description != "" ==>
                && about == old(about).(expertiseItems := about.expertiseItems) && Listing()
                && message == Success(if old(isAddingItem) then "Expertise item added" else "Expertise item updated")
      ensures tempItem.title != "" && tempItem.description != "" && (old(isAddingItem) || old(editingItemIndex).Some?) ==>
                Some(about.expertiseItems) == SaveTarget(old(about).expertiseItems, old(isAddingItem), old(editingItemIndex), tempItem)
      ensures !old(isAddingItem) && old(editingItemIndex).None? ==> about == old(about)
    {
      if tempItem.title == "" || tempItem.description == "" {
        message := Error("Title and description are required for expertise items");
        return;
      }
      var target := SaveTarget(about.expertiseItems, isAddingItem, editingItemIndex, tempItem);
      if target.Some? {
        about := about.(expertiseItems := target.value);
      }
      message := Success(if isAddingItem then "Expertise item added" else "Expertise item updated");
      editingItemIndex := None;
      isAddingItem := false;
    }

    /**
     * `handleFileChange`: a file over 2 MB or of another type than `image/...`
     * is refused before any request; otherwise it is uploaded and, on an ok
     * answer, the path read from its `filepath` member becomes the profile
     * image.
     */
    method FileChange(file: Option<ImageFile>, upload: UploadReply) returns (uploadSent: bool)
      requires Valid()
      modifies this`about, this`message
      ensures Valid()
      ensures uploadSent <==> file.Some? && FileProblem(file.value).None?
      ensures file.None? ==> about == old(about) && message == old(message)
      ensures file.Some? && FileProblem(file.value).Some? ==>
                about == old(about) && message == Error(FileProblem(file.value).value)
      ensures uploadSent && upload.Answered? && upload.response.Uploaded? ==>
                && about == old(about).(profileImage := upload.response.filepath)
                && message == Success("Image uploaded successfully")
      ensures uploadSent && upload.Answered? && !upload.response.Uploaded? ==>
                about == old(about) && message == Error("Failed to upload image")
      ensures uploadSent && upload.UploadThrown? ==>
                about == old(about) && message == Error("Error uploading image")
    {
      if file.None? {
        return false;
      }
      var problem := FileProblem(file.value);
      if problem.Some? {
        message := Error(problem.value);
        return false;
      }
      uploadSent := true;
      message := NoMessage;
      match upload
      case Answered(r) =>
        if Upload.Status(r) == 200 {
          // every answer with status 200 carries `success: true`
          var path := ReadUploadedPath(r);
          about := about.(profileImage := path.value);
          message := Success("Image uploaded successfully");
        } else {
          message := Error("Failed to upload image");
        }
      case UploadThrown =>
        message := Error("Error uploading image");
    }

    /** `handleRemoveImage`: after confirmation the profile image is cleared and nothing else changes. */
    method RemoveImage(confirmed: bool)
      requires Valid()
      modifies this`about
      ensures Valid()
      ensures about == if confirmed then old(about).(profileImage := "") else old(about)
    {
      if confirmed {
        about := about.(profileImage := "");
      }
    }
  }
}
