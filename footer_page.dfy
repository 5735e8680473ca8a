/**
 * app/admin/edit/footer/page.tsx: the footer's call to action and copyright
 * line, and the social-media list edited locally through one form; saving
 * sends the footer and the list to two separate endpoints.
 */
module FooterPage {
  import opened Common
  import opened Lists
  import opened Content
  import opened Editing

  /** The page's `footer` state: the two records and the social-media list. */
  datatype FooterForm = FooterForm(cta: FooterCta, copyright: FooterCopyright, socialMedia: seq<SocialMedia>)

  datatype CtaField = Heading | Subtext | ButtonText | ButtonLink
  datatype CopyrightField = CopyrightName | CopyrightLink
  datatype SocialField = SocialName | SocialImg | SocialLink

  /** All three fields of a social-media item are filled in. */
  predicate Complete(s: SocialMedia) {
    s.name != "" && s.img != "" && s.link != ""
  }

  /** The body of the footer request: `{ cta, copyright }`, without the list. */
  function FooterBody(f: FooterForm): (b: Footer)
    ensures b.cta == f.cta && b.copyright == f.copyright
  {
    Footer(f.cta, f.copyright)
  }

  class FooterEditor {
    var footer: Option<FooterForm>
    /** The load error, which replaces the whole page. */
    var error: string
    var message: Message
    var editingSocialIndex: Option<nat>
    var isAddingSocial: bool
    var tempSocial: SocialMedia

    ghost predicate Valid()
      reads this
    {
      editingSocialIndex.Some? ==> footer.Some? && editingSocialIndex.value < |footer.value.socialMedia|
    }

    /** No item form is open, so the list is shown with its edit and delete buttons. */
    predicate Listing()
      reads this
    {
      !isAddingSocial && editingSocialIndex.None?
    }

    /**
     * The page after its initial load: the footer from one request and the
     * list from another; a failed footer request is the error "Error loading
     * footer data".
     */
    constructor (load: Loaded<(Footer, seq<SocialMedia>)>)
      ensures Valid() && Listing() && message == NoMessage
      ensures load.Loaded? ==>
                footer == Some(FooterForm(load.data.0.cta, load.data.0.copyright, load.data.1)) && error == ""
      ensures !load.Loaded? ==> footer.None? && error == "Error loading footer data"
      ensures tempSocial == SocialMedia("", "", "")
    {
      if load.Loaded? {
        footer := Some(FooterForm(load.data.0.cta, load.data.0.copyright, load.data.1));
        error := "";
      } else {
        footer := None;
        error := "Error loading footer data";
      }
      message := NoMessage;
      editingSocialIndex := None;
      isAddingSocial := false;
      tempSocial := SocialMedia("", "", "");
    }

    /** `handleCtaChange`: one field of the call to action changes; the copyright line and the list do not. */
    method CtaChange(field: CtaField, value: string)
      requires Valid()
      modifies this`footer
      ensures Valid()
      ensures old(footer).None? ==> footer.None?
      ensures old(footer).Some? ==>
                && footer.Some? && footer.value.copyright == old(footer).value.copyright
                && footer.value.socialMedia == old(footer).value.socialMedia
      ensures old(footer).Some? && field == Heading ==> footer.value.cta == old(footer).value.cta.(heading := value)
      ensures old(footer).Some? && field == Subtext ==> footer.value.cta == old(footer).value.cta.(subtext := value)
      ensures old(footer).Some? && field == ButtonText ==> footer.value.cta == old(footer).value.cta.(buttonText := value)
      ensures old(footer).Some? && field == ButtonLink ==> footer.value.cta == old(footer).value.cta.(buttonLink := value)
    {
      if footer.None? {
        return;
      }
      var f := footer.value;
      var cta := match field
        case Heading => f.cta.(heading := value)
        case Subtext => f.cta.(subtext := value)
        case ButtonText => f.cta.(buttonText := value)
        case ButtonLink => f.cta.(buttonLink := value);
      footer := Some(f.(cta := cta));
    }

    /** `handleCopyrightChange`: one field of the copyright line changes; the call to action and the list do not. */
    method CopyrightChange(field: CopyrightField, value: string)
      requires Valid()
      modifies this`footer
      ensures Valid()
      ensures old(footer).None? ==> footer.None?
      ensures old(footer).Some? ==>
                && footer.Some? && footer.value.cta == old(footer).value.cta
                && footer.value.socialMedia == old(footer).value.socialMedia
      ensures old(footer).Some? && field == CopyrightName ==>
                footer.value.copyright == old(footer).value.copyright.(name := value)
      ensures old(footer).Some? && field == CopyrightLink ==>
                footer.value.copyright == old(footer).value.copyright.(link := value)
    {
      if footer.None? {
        return;
      }
      var f := footer.value;
      var copyright := match field
        case CopyrightName => f.copyright.(name := value)
        case CopyrightLink => f.copyright.(link := value);
      footer := Some(f.(copyright := copyright));
    }

    /** `handleSocialItemChange`. */
    method SocialItemChange(field: SocialField, value: string)
      modifies this`tempSocial
      ensures field == SocialName ==> tempSocial == old(tempSocial).(name := value)
      ensures field == SocialImg ==> tempSocial == old(tempSocial).(img := value)
      ensures field == SocialLink ==> tempSocial == old(tempSocial).(link := value)
    {
      match field
      case SocialName => tempSocial := tempSocial.(name := value);
      case SocialImg => tempSocial := tempSocial.(img := value);
      case SocialLink => tempSocial := tempSocial.(link := value);
    }

    /** `handleAddSocialClick`. */
    method AddSocialClick()
      requires Valid()
      modifies this`isAddingSocial, this`editingSocialIndex, this`tempSocial
      ensures Valid() && !Listing()
      ensures isAddingSocial && editingSocialIndex.None? && tempSocial == SocialMedia("", "", "")
    {
      isAddingSocial := true;
      editingSocialIndex := None;
      tempSocial := SocialMedia("", "", "");
    }

    /** `handleEditSocialClick`: the form opens on item `index`. */
    method EditSocialClick(index: nat)
      requires Valid() && Listing() && footer.Some? && index < |footer.value.socialMedia|
      modifies this`isAddingSocial, this`editingSocialIndex, this`tempSocial
      ensures Valid() && !Listing()
      ensures editingSocialIndex == Some(index) && tempSocial == footer.value.socialMedia[index] && !isAddingSocial
    {
      editingSocialIndex := Some(index);
      tempSocial := footer.value.socialMedia[index];
      isAddingSocial := false;
    }

    method CancelSocialItem()
      requires Valid()
      modifies this`isAddingSocial, this`editingSocialIndex
      ensures Valid() && Listing()
    {
      editingSocialIndex := None;
      isAddingSocial := false;
    }

    /**
     * `handleSaveSocialItem`: an item with an empty field is refused;
     * otherwise it is appended or put in place in the local list (with no
     * form open the list stays as it is, yet the page still reports an
     * update), and the form closes.
     */
    method SaveSocialItem()
      requires Valid()
      modifies this`footer, this`isAddingSocial, this`editingSocialIndex, this`message
      ensures Valid()
      ensures old(footer).None? ==>
                && footer == old(footer) && isAddingSocial == old(isAddingSocial)
                && editingSocialIndex == old(editingSocialIndex) && message == old(message)
      ensures old(footer).Some? && !Complete(tempSocial) ==>
                && footer == old(footer) && isAddingSocial == old(isAddingSocial)
                && editingSocialIndex == old(editingSocialIndex)
                && message == Error("All fields are required for social media items")
      ensures old(footer).Some? && Complete(tempSocial) ==>
                && footer.Some? && footer.value == old(footer).value.(socialMedia := footer.value.socialMedia)
                && Listing()
                && message == Success(if old(isAddingSocial) then "Social media item added" else "Social media item updated")
      ensures old(footer).Some? && Complete(tempSocial) && (old(isAddingSocial) || old(editingSocialIndex).Some?) ==>
                Some(footer.value.socialMedia)
                  == SaveTarget(old(footer).value.socialMedia, old(isAddingSocial), old(editingSocialIndex), tempSocial)
      ensures !old(isAddingSocial) && old(editingSocialIndex).None? ==> footer == old(footer)
    {
      if footer.None? {
        return;
      }
      if tempSocial.name == "" || tempSocial.img == "" || tempSocial.link == "" {
        message := Error("All fields are required for social media items");
        return;
      }
      var f := footer.value;
      var target := SaveTarget(f.socialMedia, isAddingSocial, editingSocialIndex, tempSocial);
      if target.Some? {
        footer := Some(f.(socialMedia := target.value));
      }
      editingSocialIndex := None;
      message := Success(if isAddingSocial then "Social media item added" else "Social media item updated");
      isAddingSocial := false;
    }

    /** `handleDeleteSocialItem`: after confirmation item `index` leaves the local list. */
    method DeleteSocialItem(index: nat, confirmed: bool)
      requires Valid() && Listing()
      modifies this`footer, this`message
      ensures Valid() && Listing()
      ensures old(footer).None? || !confirmed ==> footer == old(footer) && message == old(message)
      ensures old(footer).Some? && confirmed ==>
                && footer == Some(old(footer).value.(socialMedia := RemoveAt(old(footer).value.socialMedia, index)))
                && message == Success("Social media item deleted")
    {
      if footer.None? || !confirmed {
        return;
      }
      var f := footer.value;
      footer := Some(f.(socialMedia := RemoveAt(f.socialMedia, index)));
      message := Success("Social media item deleted");
    }

    /**
     * `handleSave`: `{ cta, copyright }` goes to the footer endpoint, then the
     * list to the social-media endpoint (not sent when the first request
     * threw). Success is reported exactly when both answers are ok; the page's
     * state is the same whatever the answers.
     */
    method Save(footerReply: Reply, socialReply: Reply) returns (footerSent: Option<Footer>, socialSent: Option<seq<SocialMedia>>)
      modifies this`message
      ensures old(footer).None? ==> footerSent.None? && socialSent.None? && message == old(message)
      ensures footer.Some? ==> footerSent == Some(FooterBody(footer.value))
      ensures footer.Some? ==>
                socialSent == if footerReply == Thrown then None else Some(footer.value.socialMedia)
      ensures footer.Some? ==>
                (message == Success("Footer updated successfully!") <==>
                 footerReply == Responded(true) && socialReply == Responded(true))
      ensures footer.Some? && !(footerReply == Responded(true) && socialReply == Responded(true)) ==>
                message == Error("Failed to update footer")
    {
      if footer.None? {
        return None, None;
      }
      message := NoMessage;
      footerSent := Some(FooterBody(footer.value));
      if footerReply == Thrown {
        message := Error("Failed to update footer");
        return footerSent, None;
      }
      socialSent := Some(footer.value.socialMedia);
      if socialReply == Thrown || !footerReply.ok || !socialReply.ok {
        message := Error("Failed to update footer");
      } else {
        message := Success("Footer updated successfully!");
      }
    }
  }
}
