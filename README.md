# Portfolio content store and admin panel, modelled in Dafny

The repository is a Next.js portfolio site. Its content (hero, projects,
experience, testimonials, tech stack, approach phases, footer, social links)
lives in one JSON document, `data/content.json`. A small admin panel edits
that document through JSON routes, and a middleware keeps the panel and the
write routes behind a session cookie.

This project models the parts of that system that hold logic:

- **Content store** (`content_service.dfy`, `content_types.dfy`). Every accessor of
  `lib/content-service.ts` reads the whole document, reads or replaces one
  section or one item, and writes the whole document back. The in-memory
  edit of each accessor is a function (`UpdateProjectDoc`, `AddExperienceDoc`,
  ...). `ContentService.ContentStore` is the file as a class whose methods are
  proved to read the document, apply that edit and write it back; a read or
  write failure is an outcome too.
- **Session gate** (`session.dfy`). The middleware's path, method and cookie
  decision, the login route and the session check. They are tied together
  as a two-state (Anonymous/Authenticated) rule.
- **Routes with logic** (`routes.dfy`, `upload.dfy`). Two routes are imperative:
  - the experience `POST` validates the required fields, then adds the entry;
  - the approach `PUT` loops `updateApproach` over the body, and each step
    writes the file.

  The upload route checks the file and names it from the MIME subtype.
- **Admin editors** (`editing.dfy` and one `*_page.dfy` per page). Each page's
  React state is a class and each handler a method. `fetch`, `confirm` and
  the server's answers are inputs. The shared parts are in `Editing`: the add
  or replace step of a save, the message chosen from an answer, and the
  comma-separated list input.
- **Tech-name conversion** (`tech_icons.dfy`, `recent_projects.dfy`). The
  projects editor turns tech names into icon paths and back. The project
  cards show icon names with a "+N more" badge.
- **Scroll state machines** (`scroll.dfy`). These are the scroll direction
  and progress of `hooks/useScrollAnimation.ts`, and the visibility of the
  floating navigation bar.

JavaScript semantics are written out where they matter:

- `split`, `trim` and `join`;
- `replace` with a string pattern, which replaces only the first occurrence;
- `toLowerCase` and the `\w` class;
- `splice`, `findIndex` and `map`;
- falsy tests and `||` defaults.

## Model

| member | source | states |
|---|---|---|
| ContentService.UpdateProjectDoc | lib/content-service.ts:132-142 | fails with ProjectNotFound exactly when no project has the id; otherwise only the first project with that id is replaced and every other section is unchanged |
| ContentService.UpdateTestimonialDoc | lib/content-service.ts:151-160 | succeeds iff 0 <= index < length; replaces exactly that position, keeps the length and every other section |
| ContentService.UpdateHeroDoc | lib/content-service.ts:169-173 | the hero section becomes the argument and every other section is unchanged |
| ContentService.MaxExperienceId | lib/content-service.ts:187-190 | the `reduce` from 0 is at least 0, bounds every id and is 0 or one of the ids |
| ContentService.WithAssignedId | lib/content-service.ts:185-192 | a zero id becomes `MaxExperienceId + 1`: one more than the largest stored id, or 1 when no id is positive, so it is above every stored id; a non-zero id is kept without a uniqueness check; no other member changes |
| ContentService.AddExperienceDoc | lib/content-service.ts:182-196 | the entry with its assigned id is appended: the length grows by one, earlier entries and other sections are unchanged |
| ContentService.UpdateExperienceDoc | lib/content-service.ts:199-209 | fails with ExperienceNotFound exactly when no entry has the id; otherwise only the first entry with that id is replaced |
| ContentService.UpdateTechStackDoc | lib/content-service.ts:218-222 | the tech-stack section is replaced wholesale, nothing else changes |
| ContentService.UpdateSocialMediaDoc | lib/content-service.ts:231-235 | the social-media list is replaced wholesale, nothing else changes |
| ContentService.UpdateApproachDoc | lib/content-service.ts:244-253 | succeeds iff 0 <= index < length; replaces exactly that phase |
| ContentService.FooterView | lib/content-service.ts:256-269 | the returned footer has no legacy `sourceCodeLink`, keeps the call to action, name and link, and is the stored footer itself when there was no legacy key |
| ContentService.UpdateFooterDoc | lib/content-service.ts:272-276 | the footer section is replaced wholesale, nothing else changes |
| ContentService.WriteBackSectionIsIdentity | lib/content-service.ts:163-173 | writing back the hero, tech stack or social list just read leaves the document unchanged |
| ContentService.WriteBackItemIsIdentity | lib/content-service.ts:151-160 | writing back the testimonial or phase read at a valid index leaves the document unchanged |
| ContentService.FooterWriteBack | lib/content-service.ts:256-276 | `updateFooter(getFooter())` restores the document iff no legacy `sourceCodeLink` was stored; otherwise that key is dropped |
| ContentService.ProjectWriteBack | lib/content-service.ts:132-142 | writing back project i under its own id restores the document iff the first project with that id equals project i (duplicate ids overwrite an earlier project) |
| ContentService.NextIdAfterGaps | lib/content-service.ts:186-192 | ids 1, 3, 5 give the next assigned id 6 |
| ContentService.ContentStore.Read | lib/content-service.ts:105-113 | the document when the file parses, ReadFailed otherwise |
| ContentService.ContentStore.Write | lib/content-service.ts:116-123 | a writable file now holds the document; otherwise WriteFailed and the file is unchanged |
| ContentService.ContentStore.GetProjects | lib/content-service.ts:126-129 | the stored projects, or ReadFailed |
| ContentService.ContentStore.UpdateProject | lib/content-service.ts:132-142 | the file holds `UpdateProjectDoc` of the old document when it was readable, writable and the id exists; on any error the file is unchanged |
| ContentService.ContentStore.GetTestimonials | lib/content-service.ts:145-148 | the stored testimonials, or ReadFailed |
| ContentService.ContentStore.UpdateTestimonial | lib/content-service.ts:151-160 | persists `UpdateTestimonialDoc`; an out-of-range index changes nothing |
| ContentService.ContentStore.GetHero | lib/content-service.ts:163-166 | the stored hero, or ReadFailed |
| ContentService.ContentStore.UpdateHero | lib/content-service.ts:169-173 | persists `UpdateHeroDoc` |
| ContentService.ContentStore.GetExperiences | lib/content-service.ts:176-179 | the stored entries, or ReadFailed |
| ContentService.ContentStore.AddExperience | lib/content-service.ts:182-196 | persists `AddExperienceDoc` and returns the entry as stored; nothing changes on a read or write failure |
| ContentService.ContentStore.UpdateExperience | lib/content-service.ts:199-209 | persists `UpdateExperienceDoc`; an unknown id changes nothing |
| ContentService.ContentStore.GetTechStack | lib/content-service.ts:212-215 | the stored tech stack, or ReadFailed |
| ContentService.ContentStore.UpdateTechStack | lib/content-service.ts:218-222 | persists `UpdateTechStackDoc` |
| ContentService.ContentStore.GetSocialMedia | lib/content-service.ts:225-228 | the stored social list, or ReadFailed |
| ContentService.ContentStore.UpdateSocialMedia | lib/content-service.ts:231-235 | persists `UpdateSocialMediaDoc` |
| ContentService.ContentStore.GetApproach | lib/content-service.ts:238-241 | the stored phases, or ReadFailed |
| ContentService.ContentStore.UpdateApproach | lib/content-service.ts:244-253 | persists `UpdateApproachDoc`; an out-of-range index changes nothing |
| ContentService.ContentStore.GetFooter | lib/content-service.ts:256-269 | `FooterView` of the stored footer, and the file is never written |
| ContentService.ContentStore.UpdateFooter | lib/content-service.ts:272-276 | persists `UpdateFooterDoc` |
| Middleware.Decide | middleware.ts:4-29 | passes iff the request is not protected or the `admin_session` cookie is exactly `"true"`; a rejected request is redirected to `/admin/login` with `redirect` set to the original path |
| Middleware.Gate | middleware.ts:32-39 | a path the matcher does not select always passes; a selected one gets `Decide` |
| Middleware.AdminPagesNeedSession | middleware.ts:9-25 | an admin path other than the login page is redirected without a session, whatever the method |
| Middleware.ContentReadsArePublic | middleware.ts:13-28 | a GET under `/api/content` always passes |
| Middleware.ContentWritesNeedSession | middleware.ts:13-25 | any other method under `/api/content` is redirected without a session |
| Middleware.LoginIsReachable | middleware.ts:9-28 | `/admin/login` and `/api/auth/login` pass without a session |
| Middleware.UnmatchedPathPasses | middleware.ts:9-39 | `/administrator` satisfies the admin prefix test but is not selected by the matcher, so it passes |
| AuthLogin.Post | app/api/auth/login/route.ts:8-45 | 200 iff the body is exactly username `admin` and password `password123`; success and the cookie come exactly with 200, along with the no-cache headers; other credentials give 401 and no cookie; an unparsable body gives 500 |
| AuthLogin.SessionCookieAttributes | app/api/auth/login/route.ts:15-21 | the cookie is `admin_session=true`, httpOnly, sameSite strict, path `/`, maxAge 86400, and secure only in production |
| AuthCheck.Get | app/api/auth/check/route.ts:4-24 | authenticated iff the cookie is present and exactly `"true"`; 200 then, 401 otherwise; the same no-cache headers on both |
| Session.StateOf | app/api/auth/check/route.ts:16 | a browser is Authenticated exactly when the middleware sees a session |
| Session.LoginTransition | app/api/auth/login/route.ts:12-21 | the right credentials authenticate; any other attempt leaves the state as it was |
| Session.GateAgreesWithCheck | middleware.ts:18-21 | on a protected path the gate passes iff the session check answers 200 |
| Session.AnonymousCheckIsRedirected | middleware.ts:10-25 | an anonymous session check is redirected to login before the route's 401 can be seen |
| Session.AnonymousWriteIsRejected | middleware.ts:13-25 | an anonymous `PUT /api/content/hero` never reaches the store |
| ApproachRoute.Overlay | app/api/content/approach/route.ts:22-24 | after writing `items[j]` at every index the stored list has, the length is the stored length; positions past the posted list keep their phase |
| ApproachRoute.OverlayStep | app/api/content/approach/route.ts:22-24 | one more loop step writes the next phase over the previous overlay |
| ApproachRoute.OverlayPrefix | app/api/content/approach/route.ts:22-24 | phases past the end of the stored list are never written, so stopping there leaves the same list as writing them all |
| ApproachRoute.WritePhases | app/api/content/approach/route.ts:21-24 | the loop over an array body: each phase is written at its index in turn; the first index past the stored list stops it with 500, the earlier writes kept |
| ApproachRoute.Get | app/api/content/approach/route.ts:4-15 | 200 with the stored phases iff the file parses, else 500 |
| ApproachRoute.Put | app/api/content/approach/route.ts:17-34 | a body that is not a list gives 500 and changes nothing; otherwise the stored list becomes `Overlay` of the body, never shrinking; 200 iff the body is no longer than the stored list, otherwise 500 after the earlier writes are saved |
| ExperienceRoute.NewExperience | app/api/content/experience/route.ts:33-43 | the stored record carries the five required members as posted, `id` or 0, `skills` or [], `thumbnail` or "" |
| ExperienceRoute.Get | app/api/content/experience/route.ts:5-16 | 200 with the stored entries iff the file parses, else 500 |
| ExperienceRoute.Post | app/api/content/experience/route.ts:18-58 | 400 iff a required member is falsy, naming the first in the order title, company, period, location, desc, with the store untouched; otherwise `AddExperienceDoc` is persisted and the stored entry, the last of the list, is answered with 201, or 500 on a file failure |
| ExperienceRoute.PostedEntryGetsFreshId | app/api/content/experience/route.ts:35-45 | an entry posted without an id is stored with an id above every stored id, and that id is one more than a stored id, or 1 |
| Upload.Extension | app/api/upload/route.ts:28 | for an `image/...` type, the text after the first `/` up to the next `/` |
| Upload.SvgExtension | app/api/upload/route.ts:28 | `image/svg+xml` gives the extension `svg+xml` |
| Upload.UploadDir.Post | app/api/upload/route.ts:6-54 | a body that is not form data gives 500; a missing or empty field gives 400 "File is required"; a non-empty text field has no `type` and gives 500; a non-image type gives 400 "Only image files are allowed"; an image is stored as `<uuid>.<subtype>` and answered with `/uploads/<uuid>.<subtype>`; a failure gives 500; only a success writes a file |
| Upload.AsWrittenLosesUploadedPath | app/admin/edit/projects/page.tsx:193-196 | reading `filePath`, as the projects editor does, gives no path for every successful upload |
| Upload.UploadedPathAsWritten | app/admin/edit/projects/page.tsx:194-196 | a path is read iff the answer has a `filePath` member |
| Upload.UploadedPath | app/admin/edit/about/page.tsx:193-195 | a path is read iff the answer has a `filepath` member |
| Upload.UploadedPathRoundTrip | app/api/upload/route.ts:42-45 | reading `filepath` from the route's answer gives exactly the uploaded public path, and nothing for an error answer |
| Editing.ReadUploadedPath | app/admin/edit/about/page.tsx:193-195 | the uploaded path is read back exactly for a successful upload |
| Editing.ReplyMessage | app/admin/edit/testimonials/page.tsx:101-111 | success message iff the answer is ok; the failure text for a non-ok answer; the error text when the request threw |
| Editing.SaveTarget | app/admin/edit/testimonials/page.tsx:82-90 | adding appends the item; editing k replaces exactly position k and keeps the length; with neither there is no list |
| Editing.DeleteUndoesAdd | app/admin/edit/testimonials/page.tsx:82-123 | deleting the appended position gives back the list before the add |
| Editing.EditSwapsOneElement | app/admin/edit/testimonials/page.tsx:84-86 | an edit swaps one element of the multiset for the new item |
| Editing.CommaList | app/admin/edit/skills/page.tsx:66 | `split(',').map(trim)`: one piece per comma-separated piece of the text, each that piece trimmed, so each is trimmed and has no comma, and there is at least one |
| Editing.CommaListRoundTrip | app/admin/edit/skills/page.tsx:66 | a list shown as `join(', ')` is read back unchanged when its items are trimmed and comma-free (also line 188) |
| Editing.CommaListKeepsEmpty | app/admin/edit/skills/page.tsx:66-80 | `"a,,b"` gives `["a", "", "b"]`: empty items are kept |
| Editing.CommaListOfEmpty | app/admin/edit/experience/page.tsx:59 | an emptied field gives one empty item, not an empty list |
| TechIcons.Lookup | app/admin/edit/projects/page.tsx:7-19 | the entry's value for a key, none iff no entry has that key (also line 141) |
| TechIcons.KeyOf | app/admin/edit/projects/page.tsx:78-82 | the key of the first entry in declaration order whose value matches, none iff none does |
| TechIcons.IconFor | app/admin/edit/projects/page.tsx:140-142 | the mapped path for a known name, else `/` + the lowercased word characters + `.svg` |
| TechIcons.DropEmpty | app/admin/edit/projects/page.tsx:137 | the kept names are non-empty, every non-empty name keeps its count, and a list without empty names is kept as it is |
| TechIcons.DropEmptyAppend | app/admin/edit/projects/page.tsx:137 | filtering a concatenation filters each part in place, so the kept names stay in their order |
| TechIcons.DropEmptySingle | app/admin/edit/projects/page.tsx:137 | one name is kept exactly when it is not empty |
| TechIcons.ConvertTechNamesToIcons | app/admin/edit/projects/page.tsx:132-143 | one icon per non-empty trimmed name, in order |
| TechIcons.TechNameFor | app/admin/edit/projects/page.tsx:76-84 | the map key for a known path, else the path without its first `/` and first `.svg` |
| TechIcons.TechNameList | app/admin/edit/projects/page.tsx:76-84 | one shown name per icon, in order |
| TechIcons.KeyMapsBack | app/admin/edit/projects/page.tsx:7-19 | every key of the map looks up its own path, since no key repeats (also line 141) |
| TechIcons.EditorKeysDistinct | app/admin/edit/projects/page.tsx:7-19 | no two map entries share a key |
| TechIcons.MappedNameRoundTrip | app/admin/edit/projects/page.tsx:76-84 | a mapped icon is shown as its key, which converts back to it (also line 141) |
| TechIcons.NameRoundTrip | app/admin/edit/projects/page.tsx:83 | the name shown for a canonical icon is one clean name that converts back to the icon (also line 141) |
| TechIcons.NamesOfJoined | app/admin/edit/projects/page.tsx:84 | clean names joined with `", "` are read back as the same names (also lines 134-137) |
| TechIcons.SplitCommaSpace | app/admin/edit/projects/page.tsx:84 | splitting names joined with `", "` at commas gives one piece per name, the first unchanged (also line 134) |
| TechIcons.SingleNameConverts | app/admin/edit/projects/page.tsx:132-143 | a single clean name converts to exactly its own icon |
| TechIcons.IconsRoundTrip | app/admin/edit/projects/page.tsx:76-84 | opening a project and saving it with the tech field untouched keeps its icon list, when every icon is canonical (also lines 132-143) |
| TechIcons.EmptyTextNoIcons | app/admin/edit/projects/page.tsx:134-137 | an empty field converts to no icons |
| TechIcons.DottedNameIcon | app/admin/edit/projects/page.tsx:141 | `name.ext` converts to `/nameext.svg`: the dot is dropped |
| TechIcons.UncanonicalIconIsRewritten | app/admin/edit/projects/page.tsx:83 | an icon the editor would not produce, such as `/logo.png`, is rewritten to `/logopng.svg` on the next save (also line 141) |
| RecentProjects.ShownIcons | components/recent-projects.tsx:133 | the first `MAX_TECH_DISPLAY` (3) icons, or all of them when fewer |
| RecentProjects.GetTechName | components/recent-projects.tsx:28-34 | the card's name for a known path, otherwise the path without its first `/` and its first `.svg` |
| RecentProjects.MoreBadge | components/recent-projects.tsx:143-147 | a badge iff icons are hidden, counting at least one and exactly the hidden icons |
| RecentProjects.ShownNames | components/recent-projects.tsx:133-139 | each shown icon's `getTechName`, in order |
| RecentProjects.BadgeCountsHidden | components/recent-projects.tsx:143-146 | the "+N more" badge appears iff icons are hidden, and N is exactly the number hidden |
| RecentProjects.CardNamesExtendEditor | components/recent-projects.tsx:11-25 | the card's map is the editor's map reversed, plus RESTful API and GenAI |
| RecentProjects.CardNameAgreesWithEditor | components/recent-projects.tsx:28-34 | apart from the two extra entries, a card shows the name the editor shows |
| RecentProjects.LookupReversed | components/recent-projects.tsx:11-30 | looking a path up in the reversed editor map finds the editor's first key for it, and falls through to the extra entries otherwise |
| RecentProjects.CardNamesConvertBack | components/recent-projects.tsx:11-25 | every name a card can show converts back to its icon in the editor |
| RecentProjects.CardExtraUnmapped | components/recent-projects.tsx:23-24 | RESTful API and GenAI are not keys of the editor's map |
| RecentProjects.RestfulApiIcon | components/recent-projects.tsx:23 | the editor converts the card name RESTful API to `/restfulapi.svg` by its fallback rule |
| RecentProjects.GenAiIcon | components/recent-projects.tsx:24 | the editor converts the card name GenAI to `/genai.svg` by its fallback rule |
| RecentProjects.SharedCardNamesConvertBack | components/recent-projects.tsx:12-22 | each of the eleven shared card names converts back to its icon in the editor |
| TestimonialsPage.TestimonialsEditor.constructor | app/admin/edit/testimonials/page.tsx:25-43 | the loaded list, or an empty list with "Failed to load testimonials data" (non-ok) or "Error loading testimonials data" (thrown) |
| TestimonialsPage.TestimonialsEditor.EditClick | app/admin/edit/testimonials/page.tsx:45-49 | the form opens on testimonial `index` |
| TestimonialsPage.TestimonialsEditor.AddClick | app/admin/edit/testimonials/page.tsx:51-59 | the form opens empty in add mode |
| TestimonialsPage.TestimonialsEditor.InputChange | app/admin/edit/testimonials/page.tsx:61-64 | exactly the named field of the form changes |
| TestimonialsPage.TestimonialsEditor.Cancel | app/admin/edit/testimonials/page.tsx:66-69 | the form closes |
| TestimonialsPage.TestimonialsEditor.Save | app/admin/edit/testimonials/page.tsx:71-114 | an empty field gives "All fields are required" and sends nothing; otherwise the list sent is the add or replace of `SaveTarget`, and the message follows the answer; only an ok answer replaces the list and closes the form |
| TestimonialsPage.TestimonialsEditor.Delete | app/admin/edit/testimonials/page.tsx:116-142 | after confirmation the list without position `index` is sent; the local list changes only on an ok answer |
| ProjectsPage.UploadedImage | app/admin/edit/projects/page.tsx:184-200 | a path is used iff an image was chosen and the upload answered with success, and it is the uploaded path |
| ProjectsPage.NextProjectId | app/admin/edit/projects/page.tsx:99 | 1 for an empty list, otherwise one more than the largest id, so it is above every id |
| ProjectsPage.SavedProject | app/admin/edit/projects/page.tsx:196-208 | only `img` differs from the form: the uploaded path, else `/Pro.jpg` for a new project without an image, else the form's image |
| ProjectsPage.ReopenedProjectSavesUnchanged | app/admin/edit/projects/page.tsx:72-93 | editing a project with canonical icons and saving it untouched sends the same list (also lines 164-208) |
| ProjectsPage.ProjectsEditor.constructor | app/admin/edit/projects/page.tsx:52-70 | the loaded list, or an empty list with "Failed to load projects data" or "Error loading projects data" |
| ProjectsPage.ProjectsEditor.EditClick | app/admin/edit/projects/page.tsx:72-93 | the form opens on project `index`, and the tech field shows the names of its icons joined with `", "` |
| ProjectsPage.ProjectsEditor.AddClick | app/admin/edit/projects/page.tsx:95-109 | the form opens empty with an id above every existing id |
| ProjectsPage.ProjectsEditor.InputChange | app/admin/edit/projects/page.tsx:111-114 | exactly the named field of the form changes |
| ProjectsPage.ProjectsEditor.TechStackInput | app/admin/edit/projects/page.tsx:117-129 | the raw text is kept and the icon list becomes its conversion |
| ProjectsPage.ProjectsEditor.ImageChange | app/admin/edit/projects/page.tsx:145-157 | an image is now chosen |
| ProjectsPage.ProjectsEditor.Cancel | app/admin/edit/projects/page.tsx:159-162 | the form closes |
| ProjectsPage.ProjectsEditor.Save | app/admin/edit/projects/page.tsx:164-235 | an empty title or description gives "Title and description are required" and sends nothing; otherwise the icon list is converted from the raw text in place, an upload is sent iff an image was chosen, and `Submitted` holds |
| ProjectsPage.ProjectsEditor.Submit | app/admin/edit/projects/page.tsx:182-234 | a failed upload gives "Error updating projects" and sends no list; otherwise the list sent is `SaveTarget` of the saved project and the message follows the answer |
| ProjectsPage.ProjectsEditor.SaveWithIcons | app/admin/edit/projects/page.tsx:170-234 | the form's icon list is replaced in place by the given list, then `Submitted` holds of the upload and the send |
| ProjectsPage.ProjectsEditor.Send | app/admin/edit/projects/page.tsx:202-229 | the list sent is `SaveTarget`; only an ok answer replaces the list and closes the form |
| ProjectsPage.ProjectsEditor.Delete | app/admin/edit/projects/page.tsx:237-263 | after confirmation the list without position `index` is sent; the local list changes only on an ok answer |
| AboutPage.FileProblem | app/admin/edit/about/page.tsx:169-179 | no problem iff the file is at most 2 MB and its type starts with `image/`; the size is checked first |
| AboutPage.AboutEditor.constructor | app/admin/edit/about/page.tsx:53-71 | the loaded data, or empty data with "Failed to load about data" or "Error loading about data" |
| AboutPage.AboutEditor.InputChange | app/admin/edit/about/page.tsx:73-76 | exactly the named text field changes |
| AboutPage.AboutEditor.ItemChange | app/admin/edit/about/page.tsx:78-81 | exactly the named field of the item form changes |
| AboutPage.AboutEditor.Save | app/admin/edit/about/page.tsx:83-111 | empty main text gives "Main text is required" and sends nothing; otherwise the data is sent and the message follows the answer |
| AboutPage.AboutEditor.AddItem | app/admin/edit/about/page.tsx:113-121 | the item form opens on a new item with the lightbulb icon |
| AboutPage.AboutEditor.EditItem | app/admin/edit/about/page.tsx:123-127 | the item form opens on item `index` |
| AboutPage.AboutEditor.DeleteItem | app/admin/edit/about/page.tsx:129-138 | after confirmation item `index` leaves the local list with "Expertise item deleted" |
| AboutPage.AboutEditor.CancelItem | app/admin/edit/about/page.tsx:140-143 | the item form closes |
| AboutPage.AboutEditor.SaveItem | app/admin/edit/about/page.tsx:145-162 | an empty title or description is refused; otherwise only the item list changes, by `SaveTarget` when adding or editing, and the form closes with "Expertise item added" or "Expertise item updated" |
| AboutPage.AboutEditor.FileChange | app/admin/edit/about/page.tsx:164-212 | an upload is sent iff a file is chosen and passes `FileProblem`; success sets the profile image to the uploaded path; otherwise "Failed to upload image" or "Error uploading image" |
| AboutPage.AboutEditor.RemoveImage | app/admin/edit/about/page.tsx:214-218 | after confirmation only the profile image is cleared |
| FooterPage.FooterBody | app/admin/edit/footer/page.tsx:188-191 | the footer request carries the call to action and the copyright line, not the list |
| FooterPage.FooterEditor.constructor | app/admin/edit/footer/page.tsx:41-69 | the loaded footer with the loaded social list, or no footer and "Error loading footer data" |
| FooterPage.FooterEditor.CtaChange | app/admin/edit/footer/page.tsx:72-82 | exactly one field of the call to action changes; nothing happens before the footer is loaded |
| FooterPage.FooterEditor.CopyrightChange | app/admin/edit/footer/page.tsx:85-95 | exactly one field of the copyright line changes |
| FooterPage.FooterEditor.SocialItemChange | app/admin/edit/footer/page.tsx:98-101 | exactly the named field of the item form changes |
| FooterPage.FooterEditor.AddSocialClick | app/admin/edit/footer/page.tsx:104-112 | the item form opens empty in add mode |
| FooterPage.FooterEditor.EditSocialClick | app/admin/edit/footer/page.tsx:115-120 | the item form opens on item `index` |
| FooterPage.FooterEditor.SaveSocialItem | app/admin/edit/footer/page.tsx:123-148 | an item with an empty field is refused; otherwise only the social list changes, by `SaveTarget` when adding or editing, and the form closes |
| FooterPage.FooterEditor.DeleteSocialItem | app/admin/edit/footer/page.tsx:151-166 | after confirmation item `index` leaves the local list |
| FooterPage.FooterEditor.CancelSocialItem | app/admin/edit/footer/page.tsx:169-172 | the item form closes |
| FooterPage.FooterEditor.Save | app/admin/edit/footer/page.tsx:175-211 | the footer goes to one endpoint and the list to the other, and the list is not sent when the first request threw; "Footer updated successfully!" iff both answers are ok, otherwise "Failed to update footer" |
| SkillsPage.Category.Value | app/admin/edit/skills/page.tsx:53-54 | a category object's current title and skills |
| SkillsPage.Snapshot | app/admin/edit/skills/page.tsx:111 | the categories as the values sent, one per object in order |
| SkillsPage.SkillsEditor.TechStackValue | app/admin/edit/skills/page.tsx:8 | the tech stack the page holds, present iff loaded (also line 111) |
| SkillsPage.SkillsEditor.constructor | app/admin/edit/skills/page.tsx:14-32 | the parsed tech stack, or nothing and "Error loading tech stack" |
| SkillsPage.SkillsEditor.AddCategory | app/admin/edit/skills/page.tsx:35-47 | a fresh category `New Category` with no skills is appended and the others keep their values |
| SkillsPage.SkillsEditor.CategoryTitleChange | app/admin/edit/skills/page.tsx:50-60 | the category object at `index` gets the title in place; the array keeps the same objects and every other category keeps its value |
| SkillsPage.SkillsEditor.SkillsChange | app/admin/edit/skills/page.tsx:63-74 | the category object at `index` gets `CommaList` of the text as its skills; every other category keeps its value |
| SkillsPage.SkillsEditor.SetSkills | app/admin/edit/skills/page.tsx:67-73 | the in-place skills write at `index`, leaving the other categories' values unchanged |
| SkillsPage.SkillsEditor.AdditionalSkillsChange | app/admin/edit/skills/page.tsx:77-86 | only the additional skills change, to `CommaList` of the text |
| SkillsPage.SkillsEditor.SetAdditionalSkills | app/admin/edit/skills/page.tsx:82-85 | only the additional skills change |
| SkillsPage.SkillsEditor.RemoveCategory | app/admin/edit/skills/page.tsx:89-99 | the category at `index` leaves the list; the others keep their order and values |
| SkillsPage.SkillsEditor.Save | app/admin/edit/skills/page.tsx:102-125 | the whole tech stack is sent; the alert iff loaded and the answer is ok, otherwise the error "Failed to update tech stack" |
| SkillsPage.SkillsEditor.UnchangedOthers | app/admin/edit/skills/page.tsx:53-54 | with distinct objects, a write into one category changes only that category's value |
| ApproachPage.NewPhase | app/admin/edit/approach/page.tsx:46-50 | "New Phase", labelled `Phase <count + 1>`, with the default description |
| ApproachPage.ApproachEditor.constructor | app/admin/edit/approach/page.tsx:14-32 | the loaded phases, or none and "Error loading approaches" |
| ApproachPage.ApproachEditor.InputChange | app/admin/edit/approach/page.tsx:35-42 | the phase at `index` differs in the named field alone; the other phases are unchanged |
| ApproachPage.ApproachEditor.AddApproach | app/admin/edit/approach/page.tsx:45-54 | `NewPhase` of the current count is appended |
| ApproachPage.ApproachEditor.RemoveApproach | app/admin/edit/approach/page.tsx:56-60 | exactly position `index` is removed, order kept, one element out of the multiset |
| ApproachPage.ApproachEditor.Save | app/admin/edit/approach/page.tsx:63-84 | the whole list is sent; the alert iff the answer is ok, otherwise "Failed to update approaches" |
| ApproachPage.RemovalIsNotStored | app/api/content/approach/route.ts:22-24 | saving a freshly loaded list with phase k removed leaves the stored list at its length: the shortened list followed by the old last phase (the page sends it at app/admin/edit/approach/page.tsx lines 57-58, 70) |
| ApproachPage.AdditionIsNotStored | app/api/content/approach/route.ts:22-32 | saving with one phase added is answered 500, and the stored list stays as loaded (the page sends it at app/admin/edit/approach/page.tsx lines 45-54) |
| ExperiencePage.SetField | app/admin/edit/experience/page.tsx:49-54 | `{...prev, [name]: value}`: the named member becomes the value and every other member, id and skills included, is kept |
| ExperiencePage.DraftBody | app/admin/edit/experience/page.tsx:16-24 | the posted draft has no id and carries every other member (also line 122) |
| ExperiencePage.ExperienceEditor.constructor | app/admin/edit/experience/page.tsx:27-45 | the loaded entries, or none and "Error loading experiences"; an empty draft |
| ExperiencePage.ExperienceEditor.InputChange | app/admin/edit/experience/page.tsx:48-55 | the entry being edited takes the value when there is one, otherwise the draft |
| ExperiencePage.ExperienceEditor.SkillsChange | app/admin/edit/experience/page.tsx:58-65 | the skills of the entry being edited, or of the draft, become `CommaList` of the text |
| ExperiencePage.ExperienceEditor.SetSkills | app/admin/edit/experience/page.tsx:60-64 | the skills go to the entry being edited, else to the draft |
| ExperiencePage.ExperienceEditor.ToggleAddForm | app/admin/edit/experience/page.tsx:166-173 | the draft form opens or closes |
| ExperiencePage.ExperienceEditor.Edit | app/admin/edit/experience/page.tsx:68-71 | the form opens on entry `index` and the draft form closes |
| ExperiencePage.ExperienceEditor.CancelEdit | app/admin/edit/experience/page.tsx:74-76 | no entry is being edited |
| ExperiencePage.ExperienceEditor.Update | app/admin/edit/experience/page.tsx:79-110 | the entry being edited is sent; on an ok answer every local entry with its id, and only those, is replaced and the form closes; otherwise the list is kept and the error is "Failed to update experience" |
| ExperiencePage.ExperienceEditor.Submit | app/admin/edit/experience/page.tsx:113-152 | the draft is posted; a created entry is appended as the server stored it and the draft is reset and hidden; otherwise the list is kept and the error is "Failed to add experience" |
| ExperiencePage.FilledDraftIsCreated | app/api/content/experience/route.ts:23-45 | a draft with the five required members passes the route's check and is stored with its members and an id one more than the largest stored id, or 1 (the page sends it at app/admin/edit/experience/page.tsx line 122) |
| ExperiencePage.EmptyDraftIsRefused | app/api/content/experience/route.ts:23-31 | the draft the form is reset to is refused, and title is the first falsy member (the page sends it at app/admin/edit/experience/page.tsx lines 135-143) |
| ScrollAnimation.ScrollProgress | hooks/useScrollAnimation.ts:26-29 | never above 1; 0 when nothing scrolls; at least 0 for a non-negative position; 1 past the end; otherwise position / height |
| ScrollAnimation.ProgressMonotone | hooks/useScrollAnimation.ts:26-29 | scrolling further never lowers the progress |
| ScrollAnimation.Step | hooks/useScrollAnimation.ts:35-43 | down iff the position grew, up iff it shrank, unchanged when equal; the position is remembered |
| ScrollAnimation.StepIdempotent | hooks/useScrollAnimation.ts:45-46 | the effect's re-run after `lastScrollY` changes leaves the state as it is |
| ScrollAnimation.RunRemembersLast | hooks/useScrollAnimation.ts:42 | after any positions the remembered one is the last |
| ScrollAnimation.NoDirectionUntilMoved | hooks/useScrollAnimation.ts:32-41 | the direction stays null exactly as long as every position equals the remembered one |
| ScrollAnimation.SomeDirectionStays | hooks/useScrollAnimation.ts:36-41 | once set, the direction is never null again |
| ScrollAnimation.ScrollDirection.constructor | hooks/useScrollAnimation.ts:32-33 | direction null and last position 0 |
| ScrollAnimation.ScrollDirection.Update | hooks/useScrollAnimation.ts:35-43 | the state in place becomes `Step` of the old state |
| FloatingNav.Step | components/ui/floating-nav.tsx:53-65 | a non-number changes nothing; a number is remembered, and the bar is visible iff the number is below 50 or not above the last position |
| FloatingNav.RepeatShows | components/ui/floating-nav.tsx:58-62 | a second event at the same position shows the bar |
| FloatingNav.Nav.constructor | components/ui/floating-nav.tsx:50-51 | visible, last position 0 |
| FloatingNav.Nav.OnChange | components/ui/floating-nav.tsx:53-65 | the state in place becomes `Step` of the old state |
| Text.Split | app/admin/edit/projects/page.tsx:134 | `split` with a one-character separator: at least one piece, no piece holds the separator, and joining the pieces gives the text back |
| Text.SplitJoin | app/admin/edit/skills/page.tsx:66 | splitting separator-free pieces joined by the separator gives the pieces back |
| Text.Trim | app/admin/edit/projects/page.tsx:134 | `trim`: the result has no surrounding whitespace and is no longer than the input |
| Text.TrimStripsOuterWhitespace | app/admin/edit/projects/page.tsx:134 | the text is whitespace, then the trimmed result, then whitespace: `trim` removes only surrounding whitespace |
| Text.TrimOfPadded | app/admin/edit/projects/page.tsx:134 | a trimmed text with whitespace added on both sides is trimmed back to exactly that text |
| Text.TrimIdempotent | app/admin/edit/skills/page.tsx:66 | trimming twice is trimming once |
| Text.RemoveFirst | app/admin/edit/projects/page.tsx:83 | `replace` with a string pattern removes at most one occurrence: the result is as long as the text or shorter by the pattern's length |
| Text.RemoveFirstAbsent | app/admin/edit/projects/page.tsx:83 | a text in which the pattern does not occur is unchanged |
| Text.RemoveFirstDeletesFirstOccurrence | app/admin/edit/projects/page.tsx:83 | when the pattern first occurs at k, exactly those characters are deleted and the text around them is kept |
| Text.Lower | app/admin/edit/projects/page.tsx:141 | `toLowerCase` character by character, with no capitals left |
| Text.KeepWordChars | app/admin/edit/projects/page.tsx:141 | `replace(/[^\w]/g, '')`: only word characters remain, never more characters than the text has |
| Text.KeepWordCharsOfWord | app/admin/edit/projects/page.tsx:141 | a text made of word characters is kept whole |
| Text.NatToString | app/admin/edit/approach/page.tsx:48 | decimal digits without a leading zero whose value is the number |
| Lists.RemoveAt | app/admin/edit/testimonials/page.tsx:122-123 | `splice(i, 1)` on a copy: the element at i is removed and the order kept; an index past the end removes nothing |
| Lists.RemoveAtMultiset | app/admin/edit/approach/page.tsx:57-58 | exactly that one element leaves the multiset |
| Lists.FindIndex | lib/content-service.ts:134 | the first position satisfying the test, or -1 iff none does |
| Lists.ReplaceWhere | app/admin/edit/experience/page.tsx:98-100 | `map(e => test(e) ? x : e)`: same length, and exactly the matching positions become x |

## Left out

- Serialisation. `fs.readFileSync`, `JSON.parse` and `fs.writeFileSync` become the store's `file` field: a parsed document or an unreadable one. A write either succeeds or fails as a whole.
- The routes import `@/services/content-service`, which is not part of this model. It is taken to have the names and behaviour of lib/content-service.ts.
- Concurrency. The lost update between two simultaneous whole-document writes is not modelled.
- Browser and network I/O. `fetch`, `confirm`, `alert`, `FileReader`, `router.refresh` and the loading flags are not modelled. The answers and the confirmation are parameters of each handler.
- The uuid of an upload is a parameter. The bytes written are the bytes posted.
- The pass-through routes for hero, about, projects, testimonials, social, footer and techstack are not modelled: each only calls one accessor and maps exceptions to 500. `getAbout`, `updateAbout`, `updateProjects` and `updateTestimonials`, which some of them call, are not defined in lib/content-service.ts. The editors' sends are modelled up to the body they send.
- The `PUT /api/content/experience/{id}` handler is not part of this model. `ExperiencePage.ExperienceEditor.Update` takes its answer as a parameter.
- app/admin/edit/hero/page.tsx, the admin layout, the dashboard, the seed data and every presentational component are not part of this model.
- The floating-point scroll values are modelled as reals, not IEEE doubles. `ScrollAnimation.ScrollProgress` is exact division.
- Non-ASCII case mapping is left out. `Text.Lower` maps only `A`–`Z`, and `\w` is the ASCII word class.
- JSON member types are left out of the experience route. A required member of another type that is truthy, such as `title: 5`, passes the route's check and is stored as it is; the body's members here are strings, a string list and an integer, so such a body cannot be written.
- `Object.prototype` keys are left out. A tech name such as `constructor` would find an inherited member in the source's map; here a name is mapped only by the map's own entries.
- FooterPage.FooterEditor.constructor: a non-ok answer from the social-media request is not modelled. The source would store that answer's error object as the list.
- AboutPage.AboutEditor.FileChange: the branch for an ok answer without `success` is not modelled. The upload route always sends `success: true` with 200.
- SkillsPage.SkillsEditor.CategoryTitleChange requires the index to be in range once the page is loaded. The handler is bound only to rendered categories; with any other index the source would throw a TypeError.
- SkillsPage.SkillsEditor.SkillsChange requires the index to be in range once loaded, for the same reason.
- ApproachPage.ApproachEditor.InputChange requires an index in range. The handler is bound only to rendered phases; with any other index the source would write a sparse array element.
- ExperiencePage.ExperienceEditor.Edit takes the index of the entry clicked rather than the entry object.
- ProjectsPage.ProjectsEditor.Submit reads the uploaded path through `ProjectsPage.UploadedImage`, which uses the route's `filepath` member, not the `filePath` the page reads (see Findings).
- SkillsPage.SkillsEditor.constructor takes the parsed categories as distinct objects, which is what `JSON.parse` produces.

## Findings

| source | as written | input that shows it | evidently intended | confidence | as-written member | corrected member |
|---|---|---|---|---|---|---|
| app/admin/edit/projects/page.tsx:196 | the editor reads the uploaded path from `uploadData.filePath`, but app/api/upload/route.ts:42-45 answers the member `filepath`, so the saved project's `img` is undefined; app/admin/edit/hero/page.tsx:89 reads the same member, and that editor is not part of this model | any successful upload, e.g. the answer `{ success: true, filepath: "/uploads/u.png" }` | read `filepath`, as app/admin/edit/about/page.tsx:195 does, so the project stores `/uploads/u.png` | high; not executed | Upload.AsWrittenLosesUploadedPath | Upload.UploadedPathRoundTrip |
