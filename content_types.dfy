/**
 * The content document: one record per top-level section of `content.json`
 * (lib/content-service.ts). Numbers that the source uses as ids or indices are
 * integers here.
 */
module Content {
  import opened Common

  datatype Project = Project(
    id: int, title: string, des: string, img: string,
    iconLists: seq<string>, link: string, sourceCode: string)

  datatype Testimonial = Testimonial(quote: string, name: string, title: string)

  datatype GridItem = GridItem(
    id: string, title: string, description: string, className: string, img: string)

  datatype Hero = Hero(
    professionTitle: string, heading: string, description: string,
    ctaText: string, ctaLink: string, image: string)

  datatype Experience = Experience(
    id: int, title: string, company: string, period: string, location: string,
    desc: string, skills: seq<string>, thumbnail: string)

  datatype SkillCategory = SkillCategory(title: string, skills: seq<string>)

  datatype TechStack = TechStack(categories: seq<SkillCategory>, additionalSkills: seq<string>)

  datatype SocialMedia = SocialMedia(name: string, img: string, link: string)

  datatype ApproachPhase = ApproachPhase(title: string, phase: string, description: string)

  datatype FooterCta = FooterCta(heading: string, subtext: string, buttonText: string, buttonLink: string)

  /**
   * The copyright record. Documents written by older versions of the site may
   * still carry a `sourceCodeLink` key; it is present here when the stored
   * JSON object has that key.
   */
  datatype FooterCopyright = FooterCopyright(name: string, link: string, sourceCodeLink: Option<string>)

  datatype Footer = Footer(cta: FooterCta, copyright: FooterCopyright)

  /** The whole document, read and written in one piece by every accessor. */
  datatype ContentData = ContentData(
    projects: seq<Project>,
    experience: seq<Experience>,
    testimonials: seq<Testimonial>,
    socialMedia: seq<SocialMedia>,
    techStack: TechStack,
    approach: seq<ApproachPhase>,
    footer: Footer,
    gridItems: seq<GridItem>,
    hero: Hero)

  /** The top-level keys of the document. */
  datatype Section =
    | ProjectsSection | ExperienceSection | TestimonialsSection | SocialMediaSection
    | TechStackSection | ApproachSection | FooterSection | GridItemsSection | HeroSection

  /** Documents `a` and `b` hold the same value under key `s`. */
  predicate SameSection(a: ContentData, b: ContentData, s: Section) {
    match s
    case ProjectsSection => a.projects == b.projects
    case ExperienceSection => a.experience == b.experience
    case TestimonialsSection => a.testimonials == b.testimonials
    case SocialMediaSection => a.socialMedia == b.socialMedia
    case TechStackSection => a.techStack == b.techStack
    case ApproachSection => a.approach == b.approach
    case FooterSection => a.footer == b.footer
    case GridItemsSection => a.gridItems == b.gridItems
    case HeroSection => a.hero == b.hero
  }

  /** Every section other than `s` is the same in `a` and `b`. */
  predicate OnlyChanged(a: ContentData, b: ContentData, s: Section) {
    forall t: Section :: t != s ==> SameSection(a, b, t)
  }

  /** A document is determined by its sections. */
  lemma SectionsDetermineDocument(a: ContentData, b: ContentData)
    requires forall t: Section :: SameSection(a, b, t)
    ensures a == b
  {
    assert SameSection(a, b, ProjectsSection) && SameSection(a, b, ExperienceSection);
    assert SameSection(a, b, TestimonialsSection) && SameSection(a, b, SocialMediaSection);
    assert SameSection(a, b, TechStackSection) && SameSection(a, b, ApproachSection);
    assert SameSection(a, b, FooterSection) && SameSection(a, b, GridItemsSection);
    assert SameSection(a, b, HeroSection);
  }

  /** A write that changed only section `s` and left `s` as it was changed nothing. */
  lemma OnlyChangedUnchanged(a: ContentData, b: ContentData, s: Section)
    requires OnlyChanged(a, b, s) && SameSection(a, b, s)
    ensures a == b
  {
    forall t: Section ensures SameSection(a, b, t) {
      if t != s {
        assert SameSection(a, b, t);
      }
    }
    SectionsDetermineDocument(a, b);
  }
}
