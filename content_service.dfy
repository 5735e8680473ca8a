/**
 * The content store of lib/content-service.ts. Every accessor reads the whole
 * document from `data/content.json`, reads or replaces one section (or one item
 * of it) in memory, and writes the whole document back.
 *
 * The functions `...Doc` give the in-memory edit of each accessor; the class
 * `ContentStore` is the file itself and its accessors, which are proved to
 * read, apply that edit and write.
 */
module ContentService {
  import opened Common
  import opened Lists
  import opened Content

  /** Why an accessor threw. */
  datatype StoreError =
    | ReadFailed                 // readFileSync or JSON.parse threw
    | WriteFailed                // writeFileSync threw
    | ProjectNotFound(id: int)
    | TestimonialNotFound(index: int)
    | ExperienceNotFound(id: int)
    | ApproachNotFound(index: int)

  /** What the backing file holds: a parsable document, or something unreadable. */
  datatype Stored = Parsed(doc: ContentData) | Unreadable

  // ---------------------------------------------------------------------------
  // The in-memory edits
  // ---------------------------------------------------------------------------

  /** `updateProject`: the first project whose id is `id` becomes `p`. */
  function UpdateProjectDoc(d: ContentData, id: int, p: Project): (r: Result<ContentData, StoreError>)
    ensures r.Err? <==> forall j :: 0 <= j < |d.projects| ==> d.projects[j].id != id
    ensures r.Err? ==> r.error == ProjectNotFound(id)
    ensures r.Ok? ==> OnlyChanged(d, r.value, ProjectsSection)
    ensures r.Ok? ==> exists i :: 0 <= i < |d.projects| && d.projects[i].id == id
                              && (forall j :: 0 <= j < i ==> d.projects[j].id != id)
                              && r.value.projects == d.projects[i := p]
  {
    var i := FindIndex(d.projects, (q: Project) => q.id == id);
    if i != -1 then Ok(d.(projects := d.projects[i := p])) else Err(ProjectNotFound(id))
  }

  /** `updateTestimonial`: position `index` becomes `t`, if it exists. */
  function UpdateTestimonialDoc(d: ContentData, index: int, t: Testimonial): (r: Result<ContentData, StoreError>)
    ensures r.Ok? <==> 0 <= index < |d.testimonials|
    ensures r.Err? ==> r.error == TestimonialNotFound(index)
    ensures r.Ok? ==> OnlyChanged(d, r.value, TestimonialsSection)
    ensures r.Ok? ==> |r.value.testimonials| == |d.testimonials| && r.value.testimonials[index] == t
    ensures r.Ok? ==> forall j :: 0 <= j < |d.testimonials| && j != index ==>
                        r.value.testimonials[j] == d.testimonials[j]
  {
    if 0 <= index < |d.testimonials| then Ok(d.(testimonials := d.testimonials[index := t]))
    else Err(TestimonialNotFound(index))
  }

  /** `updateHero`: the hero section is replaced as a whole. */
  function UpdateHeroDoc(d: ContentData, h: Hero): (r: ContentData)
    ensures OnlyChanged(d, r, HeroSection) && r.hero == h
  {
    d.(hero := h)
  }

  /**
   * The `reduce` in `addExperience`: starting from 0, the running maximum of
   * the ids, taken from left to right.
   */
  function MaxExperienceId(exps: seq<Experience>): (m: int)
    ensures m >= 0
    ensures forall j :: 0 <= j < |exps| ==> exps[j].id <= m
    ensures m == 0 || exists j :: 0 <= j < |exps| && exps[j].id == m
  {
    if exps == [] then 0
    else
      var max := MaxExperienceId(exps[..|exps| - 1]);
      var exp := exps[|exps| - 1];
      if exp.id > max then exp.id else max
  }

  /** The record `addExperience` stores: a falsy (zero) id is replaced by the maximum id plus one. */
  function WithAssignedId(exps: seq<Experience>, e: Experience): (r: Experience)
    ensures r == e.(id := r.id)
    ensures e.id != 0 ==> r.id == e.id
    ensures e.id == 0 ==> r.id >= 1 && forall j :: 0 <= j < |exps| ==> exps[j].id < r.id
    ensures e.id == 0 && exps == [] ==> r.id == 1
    ensures e.id == 0 ==> r.id == MaxExperienceId(exps) + 1
    ensures e.id == 0 ==> r.id - 1 == 0 || exists j :: 0 <= j < |exps| && exps[j].id == r.id - 1
  {
    if e.id == 0 then e.(id := MaxExperienceId(exps) + 1) else e
  }

  /** `addExperience`: the document with the record appended, and the record as stored. */
  function AddExperienceDoc(d: ContentData, e: Experience): (r: (ContentData, Experience))
    ensures r.1 == WithAssignedId(d.experience, e)
    ensures OnlyChanged(d, r.0, ExperienceSection)
    ensures |r.0.experience| == |d.experience| + 1
    ensures r.0.experience[..|d.experience|] == d.experience
    ensures r.0.experience[|d.experience|] == r.1
  {
    var x := WithAssignedId(d.experience, e);
    var d' := d.(experience := d.experience + [x]);
    assert d'.experience[..|d.experience|] == d.experience;
    (d', x)
  }

  /** `updateExperience`: the first experience whose id is `id` becomes `e`. */
  function UpdateExperienceDoc(d: ContentData, id: int, e: Experience): (r: Result<ContentData, StoreError>)
    ensures r.Err? <==> forall j :: 0 <= j < |d.experience| ==> d.experience[j].id != id
    ensures r.Err? ==> r.error == ExperienceNotFound(id)
    ensures r.Ok? ==> OnlyChanged(d, r.value, ExperienceSection)
    ensures r.Ok? ==> exists i :: 0 <= i < |d.experience| && d.experience[i].id == id
                              && (forall j :: 0 <= j < i ==> d.experience[j].id != id)
                              && r.value.experience == d.experience[i := e]
  {
    var i := FindIndex(d.experience, (x: Experience) => x.id == id);
    if i != -1 then Ok(d.(experience := d.experience[i := e])) else Err(ExperienceNotFound(id))
  }

  /** `updateTechStack`: the tech-stack section is replaced as a whole. */
  function UpdateTechStackDoc(d: ContentData, ts: TechStack): (r: ContentData)
    ensures OnlyChanged(d, r, TechStackSection) && r.techStack == ts
  {
    d.(techStack := ts)
  }

  /** `updateSocialMedia`: the social-media list is replaced as a whole. */
  function UpdateSocialMediaDoc(d: ContentData, sm: seq<SocialMedia>): (r: ContentData)
    ensures OnlyChanged(d, r, SocialMediaSection) && r.socialMedia == sm
  {
    d.(socialMedia := sm)
  }

  /** `updateApproach`: position `index` becomes `a`, if it exists. */
  function UpdateApproachDoc(d: ContentData, index: int, a: ApproachPhase): (r: Result<ContentData, StoreError>)
    ensures r.Ok? <==> 0 <= index < |d.approach|
    ensures r.Err? ==> r.error == ApproachNotFound(index)
    ensures r.Ok? ==> OnlyChanged(d, r.value, ApproachSection)
    ensures r.Ok? ==> |r.value.approach| == |d.approach| && r.value.approach[index] == a
    ensures r.Ok? ==> forall j :: 0 <= j < |d.approach| && j != index ==> r.value.approach[j] == d.approach[j]
  {
    if 0 <= index < |d.approach| then Ok(d.(approach := d.approach[index := a]))
    else Err(ApproachNotFound(index))
  }

  /** `getFooter`: the stored footer without the legacy `sourceCodeLink` key. */
  function FooterView(f: Footer): (r: Footer)
    ensures r.cta == f.cta
    ensures r.copyright.name == f.copyright.name && r.copyright.link == f.copyright.link
    ensures r.copyright.sourceCodeLink == None
    ensures f.copyright.sourceCodeLink == None ==> r == f
  {
    if f.copyright.sourceCodeLink.Some? then f.(copyright := f.copyright.(sourceCodeLink := None)) else f
  }

  /** `updateFooter`: the footer section is replaced as a whole. */
  function UpdateFooterDoc(d: ContentData, f: Footer): (r: ContentData)
    ensures OnlyChanged(d, r, FooterSection) && r.footer == f
  {
    d.(footer := f)
  }

  // ---------------------------------------------------------------------------
  // Properties of the edits
  // ---------------------------------------------------------------------------

  /** Writing back what a whole-section getter returned leaves the document as it was. */
  lemma WriteBackSectionIsIdentity(d: ContentData)
    ensures UpdateHeroDoc(d, d.hero) == d
    ensures UpdateTechStackDoc(d, d.techStack) == d
    ensures UpdateSocialMediaDoc(d, d.socialMedia) == d
  {
    OnlyChangedUnchanged(d, UpdateHeroDoc(d, d.hero), HeroSection);
    OnlyChangedUnchanged(d, UpdateTechStackDoc(d, d.techStack), TechStackSection);
    OnlyChangedUnchanged(d, UpdateSocialMediaDoc(d, d.socialMedia), SocialMediaSection);
  }

  /** Writing back an item read at a valid index leaves the document as it was. */
  lemma WriteBackItemIsIdentity(d: ContentData, i: int)
    ensures 0 <= i < |d.testimonials| ==> UpdateTestimonialDoc(d, i, d.testimonials[i]) == Ok(d)
    ensures 0 <= i < |d.approach| ==> UpdateApproachDoc(d, i, d.approach[i]) == Ok(d)
  {
    if 0 <= i < |d.testimonials| {
      var r := UpdateTestimonialDoc(d, i, d.testimonials[i]).value;
      assert r.testimonials == d.testimonials;
      OnlyChangedUnchanged(d, r, TestimonialsSection);
    }
    if 0 <= i < |d.approach| {
      var r := UpdateApproachDoc(d, i, d.approach[i]).value;
      assert r.approach == d.approach;
      OnlyChangedUnchanged(d, r, ApproachSection);
    }
  }

  /**
   * `updateFooter(getFooter())` leaves the document as it was exactly when the
   * stored copyright has no legacy `sourceCodeLink`; otherwise it drops that key.
   */
  lemma FooterWriteBack(d: ContentData)
    ensures UpdateFooterDoc(d, FooterView(d.footer)) == d <==> d.footer.copyright.sourceCodeLink == None
    ensures UpdateFooterDoc(d, FooterView(d.footer)).footer.copyright.sourceCodeLink == None
  {
    var r := UpdateFooterDoc(d, FooterView(d.footer));
    if d.footer.copyright.sourceCodeLink == None {
      OnlyChangedUnchanged(d, r, FooterSection);
    } else {
      assert r.footer.copyright.sourceCodeLink != d.footer.copyright.sourceCodeLink;
    }
  }

  /**
   * Writing back project `i` under its own id restores the document exactly
   * when the first project carrying that id equals project `i`; with a
   * duplicate id an earlier, different project is overwritten instead.
   */
  lemma ProjectWriteBack(d: ContentData, i: int)
    requires 0 <= i < |d.projects|
    ensures var k := FindIndex(d.projects, (q: Project) => q.id == d.projects[i].id);
            0 <= k <= i
            && (UpdateProjectDoc(d, d.projects[i].id, d.projects[i]) == Ok(d) <==> d.projects[k] == d.projects[i])
  {
    var p := d.projects[i];
    var k := FindIndex(d.projects, (q: Project) => q.id == p.id);
    var r := UpdateProjectDoc(d, p.id, p);
    assert r.Ok?;
    var k' :| 0 <= k' < |d.projects| && d.projects[k'].id == p.id
           && (forall j :: 0 <= j < k' ==> d.projects[j].id != p.id)
           && r.value.projects == d.projects[k' := p];
    assert k' == k;
    if d.projects[k] == p {
      assert r.value.projects == d.projects;
      OnlyChangedUnchanged(d, r.value, ProjectsSection);
    } else {
      assert r.value.projects[k] != d.projects[k];
    }
  }

  /** Ids 1, 3 and 5 give the next id 6. */
  lemma NextIdAfterGaps(exps: seq<Experience>, e: Experience)
    requires |exps| == 3 && exps[0].id == 1 && exps[1].id == 3 && exps[2].id == 5
    requires e.id == 0
    ensures WithAssignedId(exps, e).id == 6
  {
    assert exps[..2][..1] == exps[..1];
    assert MaxExperienceId(exps[..1]) == 1;
    assert MaxExperienceId(exps[..2]) == 3;
  }

  // ---------------------------------------------------------------------------
  // The file and its accessors
  // ---------------------------------------------------------------------------

  /** `data/content.json`, and whether the file system accepts a write. */
  class ContentStore {
    var file: Stored
    var writable: bool

    constructor (file: Stored, writable: bool)
      ensures this.file == file && this.writable == writable
    {
      this.file := file;
      this.writable := writable;
    }

    /**
     * The accessor started from `before`; when its edit gave `edited`, the file
     * now holds the edited document if it was writable, and nothing changed
     * on an error.
     */
    ghost predicate Persisted(before: Stored, edited: Result<ContentData, StoreError>, r: Result<(), StoreError>)
      reads this
    {
      match edited
      case Err(e) => file == before && r == Err(e)
      case Ok(d) =>
        if writable then file == Parsed(d) && r == Ok(())
        else file == before && r == Err(WriteFailed)
    }

    /** `readContentFile`. */
    method Read() returns (r: Result<ContentData, StoreError>)
      ensures r == if file.Parsed? then Ok(file.doc) else Err(ReadFailed)
    {
      if file.Parsed? {
        r := Ok(file.doc);
      } else {
        r := Err(ReadFailed);
      }
    }

    /** `writeContentFile`. */
    method Write(d: ContentData) returns (r: Result<(), StoreError>)
      modifies this`file
      ensures writable ==> file == Parsed(d) && r == Ok(())
      ensures !writable ==> file == old(file) && r == Err(WriteFailed)
    {
      if writable {
        file := Parsed(d);
        r := Ok(());
      } else {
        r := Err(WriteFailed);
      }
    }

    method GetProjects() returns (r: Result<seq<Project>, StoreError>)
      ensures r == if file.Parsed? then Ok(file.doc.projects) else Err(ReadFailed)
    {
      var content := Read();
      r := if content.Ok? then Ok(content.value.projects) else Err(content.error);
    }

    method UpdateProject(id: int, p: Project) returns (r: Result<(), StoreError>)
      modifies this`file
      ensures Persisted(old(file), if old(file).Parsed? then UpdateProjectDoc(old(file).doc, id, p) else Err(ReadFailed), r)
    {
      var content := Read();
      if content.Err? {
        return Err(content.error);
      }
      var doc := content.value;
      var projectIndex := FindIndex(doc.projects, (q: Project) => q.id == id);
      if projectIndex != -1 {
        doc := doc.(projects := doc.projects[projectIndex := p]);
        r := Write(doc);
      } else {
        r := Err(ProjectNotFound(id));
      }
    }

    method GetTestimonials() returns (r: Result<seq<Testimonial>, StoreError>)
      ensures r == if file.Parsed? then Ok(file.doc.testimonials) else Err(ReadFailed)
    {
      var content := Read();
      r := if content.Ok? then Ok(content.value.testimonials) else Err(content.error);
    }

    method UpdateTestimonial(index: int, t: Testimonial) returns (r: Result<(), StoreError>)
      modifies this`file
      ensures Persisted(old(file), if old(file).Parsed? then UpdateTestimonialDoc(old(file).doc, index, t) else Err(ReadFailed), r)
    {
      var content := Read();
      if content.Err? {
        return Err(content.error);
      }
      var doc := content.value;
      if 0 <= index < |doc.testimonials| {
        doc := doc.(testimonials := doc.testimonials[index := t]);
        r := Write(doc);
      } else {
        r := Err(TestimonialNotFound(index));
      }
    }

    method GetHero() returns (r: Result<Hero, StoreError>)
      ensures r == if file.Parsed? then Ok(file.doc.hero) else Err(ReadFailed)
    {
      var content := Read();
      r := if content.Ok? then Ok(content.value.hero) else Err(content.error);
    }

    method UpdateHero(h: Hero) returns (r: Result<(), StoreError>)
      modifies this`file
      ensures Persisted(old(file), if old(file).Parsed? then Ok(UpdateHeroDoc(old(file).doc, h)) else Err(ReadFailed), r)
    {
      var content := Read();
      if content.Err? {
        return Err(content.error);
      }
      var doc := content.value;
      doc := doc.(hero := h);
      r := Write(doc);
    }

    method GetExperiences() returns (r: Result<seq<Experience>, StoreError>)
      ensures r == if file.Parsed? then Ok(file.doc.experience) else Err(ReadFailed)
    {
      var content := Read();
      r := if content.Ok? then Ok(content.value.experience) else Err(content.error);
    }

    /**
     * `addExperience`. The source assigns the new id into the caller's object;
     * here the record as stored is returned instead.
     */
    method AddExperience(e: Experience) returns (r: Result<Experience, StoreError>)
      modifies this`file
      ensures old(file).Unreadable? ==> file == old(file) && r == Err(ReadFailed)
      ensures old(file).Parsed? && writable ==>
                file == Parsed(AddExperienceDoc(old(file).doc, e).0) && r == Ok(AddExperienceDoc(old(file).doc, e).1)
      ensures old(file).Parsed? && !writable ==> file == old(file) && r == Err(WriteFailed)
    {
      var content := Read();
      if content.Err? {
        return Err(content.error);
      }
      var doc := content.value;
      var newExperience := e;
      if newExperience.id == 0 {
        var maxId := MaxExperienceId(doc.experience);
        newExperience := newExperience.(id := maxId + 1);
      }
      doc := doc.(experience := doc.experience + [newExperience]);
      var written := Write(doc);
      r := if written.Ok? then Ok(newExperience) else Err(written.error);
    }

    method UpdateExperience(id: int, e: Experience) returns (r: Result<(), StoreError>)
      modifies this`file
      ensures Persisted(old(file), if old(file).Parsed? then UpdateExperienceDoc(old(file).doc, id, e) else Err(ReadFailed), r)
    {
      var content := Read();
      if content.Err? {
        return Err(content.error);
      }
      var doc := content.value;
      var experienceIndex := FindIndex(doc.experience, (x: Experience) => x.id == id);
      if experienceIndex != -1 {
        doc := doc.(experience := doc.experience[experienceIndex := e]);
        r := Write(doc);
      } else {
        r := Err(ExperienceNotFound(id));
      }
    }

    method GetTechStack() returns (r: Result<TechStack, StoreError>)
      ensures r == if file.Parsed? then Ok(file.doc.techStack) else Err(ReadFailed)
    {
      var content := Read();
      r := if content.Ok? then Ok(content.value.techStack) else Err(content.error);
    }

    method UpdateTechStack(ts: TechStack) returns (r: Result<(), StoreError>)
      modifies this`file
      ensures Persisted(old(file), if old(file).Parsed? then Ok(UpdateTechStackDoc(old(file).doc, ts)) else Err(ReadFailed), r)
    {
      var content := Read();
      if content.Err? {
        return Err(content.error);
      }
      var doc := content.value;
      doc := doc.(techStack := ts);
      r := Write(doc);
    }

    method GetSocialMedia() returns (r: Result<seq<SocialMedia>, StoreError>)
      ensures r == if file.Parsed? then Ok(file.doc.socialMedia) else Err(ReadFailed)
    {
      var content := Read();
      r := if content.Ok? then Ok(content.value.socialMedia) else Err(content.error);
    }

    method UpdateSocialMedia(sm: seq<SocialMedia>) returns (r: Result<(), StoreError>)
      modifies this`file
      ensures Persisted(old(file), if old(file).Parsed? then Ok(UpdateSocialMediaDoc(old(file).doc, sm)) else Err(ReadFailed), r)
    {
      var content := Read();
      if content.Err? {
        return Err(content.error);
      }
      var doc := content.value;
      doc := doc.(socialMedia := sm);
      r := Write(doc);
    }

    method GetApproach() returns (r: Result<seq<ApproachPhase>, StoreError>)
      ensures r == if file.Parsed? then Ok(file.doc.approach) else Err(ReadFailed)
    {
      var content := Read();
      r := if content.Ok? then Ok(content.value.approach) else Err(content.error);
    }

    method UpdateApproach(index: int, a: ApproachPhase) returns (r: Result<(), StoreError>)
      modifies this`file
      ensures Persisted(old(file), if old(file).Parsed? then UpdateApproachDoc(old(file).doc, index, a) else Err(ReadFailed), r)
    {
      var content := Read();
      if content.Err? {
        return Err(content.error);
      }
      var doc := content.value;
      if 0 <= index < |doc.approach| {
        doc := doc.(approach := doc.approach[index := a]);
        r := Write(doc);
      } else {
        r := Err(ApproachNotFound(index));
      }
    }

    /** `getFooter`: never writes. */
    method GetFooter() returns (r: Result<Footer, StoreError>)
      ensures r == if file.Parsed? then Ok(FooterView(file.doc.footer)) else Err(ReadFailed)
    {
      var content := Read();
      if content.Err? {
        return Err(content.error);
      }
      var footer := content.value.footer;
      if footer.copyright.sourceCodeLink.Some? {
        r := Ok(footer.(copyright := FooterCopyright(footer.copyright.name, footer.copyright.link, None)));
      } else {
        r := Ok(footer);
      }
    }

    method UpdateFooter(f: Footer) returns (r: Result<(), StoreError>)
      modifies this`file
      ensures Persisted(old(file), if old(file).Parsed? then Ok(UpdateFooterDoc(old(file).doc, f)) else Err(ReadFailed), r)
    {
      var content := Read();
      if content.Err? {
        return Err(content.error);
      }
      var doc := content.value;
      doc := doc.(footer := f);
      r := Write(doc);
    }
  }
}
