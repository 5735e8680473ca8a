/**
 * app/api/content/approach/route.ts: the approach list is read whole and
 * written back one phase at a time through `updateApproach`.
 */
module ApproachRoute {
  import opened Common
  import opened Content
  import opened ContentService

  /** The request body: not JSON, JSON without `forEach` (not an array), or an array of phases. */
  datatype ApproachBody = Unparsable | NotAList | Phases(items: seq<ApproachPhase>)

  /**
   * The stored list after `items[j]` has been written at every index `j` the
   * list has; positions past the end of `items` keep their phase.
   */
  function Overlay(stored: seq<ApproachPhase>, items: seq<ApproachPhase>): (r: seq<ApproachPhase>)
    ensures |r| == |stored|
    ensures forall j :: 0 <= j < |r| ==> r[j] == if j < |items| then items[j] else stored[j]
    ensures |items| == |stored| ==> r == items
    ensures items == [] ==> r == stored
  {
    if |items| >= |stored| then items[..|stored|] else items + stored[|items|..]
  }

  /** One more phase written at the next index. */
  lemma OverlayStep(stored: seq<ApproachPhase>, items: seq<ApproachPhase>, i: nat)
    requires i < |items| && i < |stored|
    ensures Overlay(stored, items[..i + 1]) == Overlay(stored, items[..i])[i := items[i]]
  {
    var a := Overlay(stored, items[..i + 1]);
    var b := Overlay(stored, items[..i])[i := items[i]];
    assert |a| == |b|;
    forall j | 0 <= j < |a| ensures a[j] == b[j] {
      if j < i {
        assert items[..i + 1][j] == items[..i][j];
      }
    }
  }

  /** The phases past the end of the stored list change nothing. */
  lemma OverlayPrefix(stored: seq<ApproachPhase>, items: seq<ApproachPhase>)
    requires |stored| <= |items|
    ensures Overlay(stored, items[..|stored|]) == Overlay(stored, items)
  {
  }

  /** `GET`: 200 with the stored list, 500 when the file cannot be read. */
  method Get(store: ContentStore) returns (status: nat, phases: seq<ApproachPhase>)
    ensures status == 200 <==> store.file.Parsed?
    ensures status != 200 ==> status == 500 && phases == []
    ensures status == 200 ==> phases == store.file.doc.approach
  {
    var r := store.GetApproach();
    if r.Ok? {
      status, phases := 200, r.value;
    } else {
      status, phases := 500, [];
    }
  }

  /**
   * `PUT`: `updateApproach(index, approach)` for each element in order. Each
   * call reads and writes the whole file, so when an index runs past the end of
   * the stored list the phases before it are already written and the answer is
   * 500.
   */
  method Put(store: ContentStore, body: ApproachBody) returns (status: nat)
    modifies store`file
    ensures !body.Phases? ==> status == 500 && store.file == old(store.file)
    ensures body.Phases? && body.items == [] ==> status == 200 && store.file == old(store.file)
    ensures body.Phases? && body.items != [] && !(old(store.file).Parsed? && store.writable) ==>
              status == 500 && store.file == old(store.file)
    ensures body.Phases? && old(store.file).Parsed? && store.writable ==>
              var d := old(store.file).doc;
              && store.file == Parsed(d.(approach := Overlay(d.approach, body.items)))
              && (status == 200 <==> |body.items| <= |d.approach|)
              && (status != 200 ==> status == 500)
  {
    if !body.Phases? {
      return 500;
    }
    status := WritePhases(store, body.items);
  }

  /** The loop of `PUT` over the phases of an array body. */
  method WritePhases(store: ContentStore, items: seq<ApproachPhase>) returns (status: nat)
    modifies store`file
    ensures items == [] ==> status == 200 && store.file == old(store.file)
    ensures items != [] && !(old(store.file).Parsed? && store.writable) ==>
              status == 500 && store.file == old(store.file)
    ensures old(store.file).Parsed? && store.writable ==>
              var d := old(store.file).doc;
              && store.file == Parsed(d.(approach := Overlay(d.approach, items)))
              && (status == 200 <==> |items| <= |d.approach|)
              && (status != 200 ==> status == 500)
  {
    ghost var before := store.file;
    var i := 0;
    while i < |items|
      invariant 0 <= i <= |items|
      invariant before.Parsed? && store.writable ==>
                  i <= |before.doc.approach|
                  && store.file == Parsed(before.doc.(approach := Overlay(before.doc.approach, items[..i])))
      invariant !(before.Parsed? && store.writable) ==> i == 0 && store.file == before
    {
      var r := store.UpdateApproach(i, items[i]);
      if r.Err? {
        if before.Parsed? && store.writable {
          OverlayPrefix(before.doc.approach, items);
        }
        return 500;
      }
      OverlayStep(before.doc.approach, items, i);
      i := i + 1;
    }
    assert items[..i] == items;
    return 200;
  }
}

/**
 * app/api/content/experience/route.ts: listing the experience entries and
 * adding one after checking the required fields.
 */
module ExperienceRoute {
  import opened Common
  import opened Content
  import opened ContentService

  /**
   * The request body: `Unparsable` when `request.json()` throws or the body is
   * `null` (reading a member of it throws), otherwise its members (`None` when
   * the member is absent or `null`). Any other JSON value, such as `5` or `[]`,
   * has every member absent.
   */
  datatype ExperienceBody =
    | Unparsable
    | Fields(
        id: Option<int>, title: Option<string>, company: Option<string>, period: Option<string>,
        location: Option<string>, desc: Option<string>, skills: Option<seq<string>>,
        thumbnail: Option<string>)

  datatype PostResponse =
    | Created(experience: Experience)
    | MissingField(field: string)
    | Failed

  function Status(r: PostResponse): nat {
    match r
    case Created(_) => 201
    case MissingField(_) => 400
    case Failed => 500
  }

  /** The members the route requires, checked in this order. */
  const RequiredFields: seq<string> := ["title", "company", "period", "location", "desc"]

  /** `body[name]` for the required members. */
  function Member(b: ExperienceBody, name: string): Option<string>
    requires b.Fields?
  {
    if name == "title" then b.title
    else if name == "company" then b.company
    else if name == "period" then b.period
    else if name == "location" then b.location
    else if name == "desc" then b.desc
    else None
  }

  /** A string member is falsy when it is absent or empty. */
  predicate Falsy(v: Option<string>) {
    v.None? || v.value == ""
  }

  /** All required members are truthy. */
  predicate Complete(b: ExperienceBody)
    requires b.Fields?
  {
    forall k :: 0 <= k < |RequiredFields| ==> !Falsy(Member(b, RequiredFields[k]))
  }

  /**
   * The record the route builds: `id || 0`, `skills || []`, `thumbnail || ""`
   * and the five required members as given.
   */
  function NewExperience(b: ExperienceBody): (e: Experience)
    requires b.Fields? && Complete(b)
    ensures b.title == Some(e.title) && b.company == Some(e.company) && b.period == Some(e.period)
    ensures b.location == Some(e.location) && b.desc == Some(e.desc)
    ensures e.title != "" && e.company != "" && e.period != "" && e.location != "" && e.desc != ""
    ensures e.id == (if b.id.Some? then b.id.value else 0)
    ensures e.thumbnail == (if b.thumbnail.Some? then b.thumbnail.value else "")
    ensures e.skills == (if b.skills.Some? then b.skills.value else [])
  {
    assert !Falsy(Member(b, RequiredFields[0])) && !Falsy(Member(b, RequiredFields[1]));
    assert !Falsy(Member(b, RequiredFields[2])) && !Falsy(Member(b, RequiredFields[3]));
    assert !Falsy(Member(b, RequiredFields[4]));
    Experience(
      if b.id.Some? then b.id.value else 0,
      b.title.value, b.company.value, b.period.value, b.location.value, b.desc.value,
      if b.skills.Some? then b.skills.value else [],
      if b.thumbnail.Some? then b.thumbnail.value else "")
  }

  /** `GET`: 200 with the stored entries, 500 when the file cannot be read. */
  method Get(store: ContentStore) returns (status: nat, entries: seq<Experience>)
    ensures status == 200 <==> store.file.Parsed?
    ensures status != 200 ==> status == 500 && entries == []
    ensures status == 200 ==> entries == store.file.doc.experience
  {
    var r := store.GetExperiences();
    if r.Ok? {
      status, entries := 200, r.value;
    } else {
      status, entries := 500, [];
    }
  }

  /**
   * `POST`: 400 naming the first falsy required member; otherwise the record is
   * added and answered with 201, or 500 when the file cannot be read or written.
   */
  method Post(store: ContentStore, body: ExperienceBody) returns (resp: PostResponse)
    modifies store`file
    ensures body.Unparsable? ==> resp == Failed && store.file == old(store.file)
    ensures resp.MissingField? <==> body.Fields? && !Complete(body)
    ensures resp.MissingField? ==>
              exists k :: 0 <= k < |RequiredFields| && resp.field == RequiredFields[k]
                && Falsy(Member(body, RequiredFields[k]))
                && forall j :: 0 <= j < k ==> !Falsy(Member(body, RequiredFields[j]))
    ensures resp.MissingField? ==> store.file == old(store.file)
    ensures body.Fields? && Complete(body) ==>
              if old(store.file).Parsed? && store.writable then
                var added := AddExperienceDoc(old(store.file).doc, NewExperience(body));
                store.file == Parsed(added.0) && resp == Created(added.1)
              else
                store.file == old(store.file) && resp == Failed
    ensures resp.Created? ==> store.file.Parsed? && |store.file.doc.experience| >= 1
    ensures resp.Created? ==> store.file.doc.experience[|store.file.doc.experience| - 1] == resp.experience
  {
    if body.Unparsable? {
      return Failed;
    }
    for i := 0 to |RequiredFields|
      invariant forall j :: 0 <= j < i ==> !Falsy(Member(body, RequiredFields[j]))
    {
      var value := Member(body, RequiredFields[i]);
      if value.None? || value.value == "" {
        return MissingField(RequiredFields[i]);
      }
    }
    var added := store.AddExperience(NewExperience(body));
    resp := if added.Ok? then Created(added.value) else Failed;
  }

  /** The id the server gives an entry posted without one exceeds every stored id. */
  lemma PostedEntryGetsFreshId(d: ContentData, body: ExperienceBody)
    requires body.Fields? && Complete(body) && (body.id == None || body.id == Some(0))
    ensures var e := AddExperienceDoc(d, NewExperience(body)).1;
            && e.id >= 1 && (forall j :: 0 <= j < |d.experience| ==> d.experience[j].id < e.id)
            && (e.id - 1 == 0 || exists j :: 0 <= j < |d.experience| && d.experience[j].id == e.id - 1)
  {
  }
}
