/**
 * app/admin/edit/skills/page.tsx: the tech stack's categories and its
 * additional skills, edited locally and sent whole. A title or skills edit
 * copies the array of categories but writes into the category object itself,
 * which the copy shares with the previous state; categories are therefore
 * objects here.
 */
module SkillsPage {
  import opened Common
  import opened Lists
  import opened Content
  import opened Editing

  /** One category object of the page's state. */
  class Category {
    var title: string
    var skills: seq<string>

    constructor (title: string, skills: seq<string>)
      ensures this.title == title && this.skills == skills
    {
      this.title := title;
      this.skills := skills;
    }

    function Value(): (c: SkillCategory)
      reads this
      ensures c.title == title && c.skills == skills
    {
      SkillCategory(title, skills)
    }
  }

  /** No object appears twice, so a write into one category reaches only that category. */
  ghost predicate Distinct(cs: seq<Category>) {
    forall i, j :: 0 <= i < j < |cs| ==> cs[i] != cs[j]
  }

  /** The categories as the values `JSON.stringify` sends. */
  function Snapshot(cs: seq<Category>): (r: seq<SkillCategory>)
    reads cs
    ensures |r| == |cs|
    ensures forall i :: 0 <= i < |cs| ==> r[i] == cs[i].Value()
  {
    if cs == [] then [] else [cs[0].Value()] + Snapshot(cs[1..])
  }

  class SkillsEditor {
    /** `techStack !== null`. */
    var loaded: bool
    var categories: seq<Category>
    var additionalSkills: seq<string>
    /** The error, which replaces the whole page. */
    var error: string

    ghost predicate Valid()
      reads this
    {
      Distinct(categories) && (!loaded ==> categories == [] && additionalSkills == [])
    }

    /** The tech stack the page holds, as a value. */
    function TechStackValue(): (t: Option<TechStack>)
      reads this, categories
      ensures t.Some? <==> loaded
      ensures loaded ==> t.value.categories == Snapshot(categories) && t.value.additionalSkills == additionalSkills
    {
      if loaded then Some(TechStack(Snapshot(categories), additionalSkills)) else None
    }

    /**
     * The page after its initial load; `load` carries the parsed response,
     * whose categories are distinct objects. A failed load is the error
     * "Error loading tech stack".
     */
    constructor (load: Loaded<(seq<Category>, seq<string>)>)
      requires load.Loaded? ==> Distinct(load.data.0)
      ensures Valid()
      ensures load.Loaded? ==>
                loaded && categories == load.data.0 && additionalSkills == load.data.1 && error == ""
      ensures !load.Loaded? ==> !loaded && error == "Error loading tech stack"
    {
      if load.Loaded? {
        loaded := true;
        categories := load.data.0;
        additionalSkills := load.data.1;
        error := "";
      } else {
        loaded := false;
        categories := [];
        additionalSkills := [];
        error := "Error loading tech stack";
      }
    }

    /** `handleAddCategory`: a new object `{ title: "New Category", skills: [] }` is appended. */
    method AddCategory()
      requires Valid()
      modifies this`categories
      ensures Valid()
      ensures !loaded ==> categories == old(categories)
      ensures loaded ==>
                && |categories| == |old(categories)| + 1 && categories[..|old(categories)|] == old(categories)
                && fresh(categories[|old(categories)|])
      ensures TechStackValue() ==
                if loaded then Some(old(TechStackValue()).value.(categories :=
                  old(Snapshot(categories)) + [SkillCategory("New Category", [])]))
                else old(TechStackValue())
    {
      if !loaded {
        return;
      }
      ghost var before := Snapshot(categories);
      var c := new Category("New Category", []);
      categories := categories + [c];
      assert categories[..|old(categories)|] == old(categories);
      assert forall i :: 0 <= i < |before| ==> Snapshot(categories)[i] == before[i];
      assert Snapshot(categories) == before + [SkillCategory("New Category", [])];
    }

    /**
     * `handleCategoryTitleChange`: the title of the category object at `index`
     * is overwritten; the array holds the same objects as before, and every
     * other category keeps its value.
     */
    method CategoryTitleChange(index: nat, title: string)
      requires Valid() && (loaded ==> index < |categories|)
      modifies if index < |categories| then {categories[index]} else {}
      ensures Valid()
      ensures loaded ==> categories[index].title == title && categories[index].skills == old(categories[index].skills)
      ensures Snapshot(categories) ==
                if loaded then old(Snapshot(categories))[index := SkillCategory(title, old(categories[index].skills))]
                else old(Snapshot(categories))
    {
      if !loaded {
        return;
      }
      categories[index].title := title;
      UnchangedOthers(old(Snapshot(categories)), index, SkillCategory(title, old(categories[index].skills)));
    }

    /**
     * `handleSkillsChange`: the text is split on commas and trimmed into the
     * skills of the category object at `index`; every other category keeps
     * its value.
     */
    method SkillsChange(index: nat, text: string)
      requires Valid() && (loaded ==> index < |categories|)
      modifies if index < |categories| then {categories[index]} else {}
      ensures Valid()
      ensures loaded ==> categories[index].skills == CommaList(text) && categories[index].title == old(categories[index].title)
      ensures Snapshot(categories) ==
                if loaded then old(Snapshot(categories))[index := SkillCategory(old(categories[index].title), CommaList(text))]
                else old(Snapshot(categories))
    {
      SetSkills(index, CommaList(text));
    }

    /** The state update of `handleSkillsChange`, once the text is split. */
    method SetSkills(index: nat, skills: seq<string>)
      requires Valid() && (loaded ==> index < |categories|)
      modifies if index < |categories| then {categories[index]} else {}
      ensures Valid()
      ensures loaded ==> categories[index].skills == skills && categories[index].title == old(categories[index].title)
      ensures Snapshot(categories) ==
                if loaded then old(Snapshot(categories))[index := SkillCategory(old(categories[index].title), skills)]
                else old(Snapshot(categories))
    {
      if !loaded {
        return;
      }
      categories[index].skills := skills;
      UnchangedOthers(old(Snapshot(categories)), index, SkillCategory(old(categories[index].title), skills));
    }

    /** `handleAdditionalSkillsChange`: only the additional skills change. */
    method AdditionalSkillsChange(text: string)
      requires Valid()
      modifies this`additionalSkills
      ensures Valid()
      ensures additionalSkills == if loaded then CommaList(text) else old(additionalSkills)
    {
      SetAdditionalSkills(CommaList(text));
    }

    /** The state update of `handleAdditionalSkillsChange`, once the text is split. */
    method SetAdditionalSkills(skills: seq<string>)
      requires Valid()
      modifies this`additionalSkills
      ensures Valid()
      ensures additionalSkills == if loaded then skills else old(additionalSkills)
    {
      if loaded {
        additionalSkills := skills;
      }
    }

    /** `handleRemoveCategory`: the category at `index` leaves the array; the others keep their order. */
    method RemoveCategory(index: nat)
      requires Valid()
      modifies this`categories
      ensures Valid()
      ensures categories == if loaded then RemoveAt(old(categories), index) else old(categories)
      ensures Snapshot(categories) ==
                if loaded then RemoveAt(old(Snapshot(categories)), index) else old(Snapshot(categories))
    {
      if loaded {
        categories := RemoveAt(categories, index);
        assert Distinct(categories) by {
          forall i, j | 0 <= i < j < |categories| ensures categories[i] != categories[j] {
            var i' := if i < index then i else i + 1;
            var j' := if j < index then j else j + 1;
            assert categories[i] == old(categories)[i'] && categories[j] == old(categories)[j'];
          }
        }
      }
    }

    /**
     * `handleSave`: the whole tech stack is sent; an ok answer raises the alert
     * "Tech stack updated successfully!", any other outcome sets the error
     * "Failed to update tech stack".
     */
    method Save(reply: Reply) returns (sent: Option<TechStack>, alerted: bool)
      requires Valid()
      modifies this`error
      ensures sent == TechStackValue()
      ensures alerted <==> loaded && reply == Responded(true)
      ensures error == if loaded && reply != Responded(true) then "Failed to update tech stack" else old(error)
    {
      sent := TechStackValue();
      alerted := false;
      if !loaded {
        return;
      }
      if reply == Responded(true) {
        alerted := true;
      } else {
        error := "Failed to update tech stack";
      }
    }

    /** Every position but `index` still shows its old value once only that object was written. */
    lemma UnchangedOthers(before: seq<SkillCategory>, index: nat, c: SkillCategory)
      requires Distinct(categories) && index < |categories| && |before| == |categories|
      requires categories[index].Value() == c
      requires forall j :: 0 <= j < |categories| && j != index ==> categories[j].Value() == before[j]
      ensures Snapshot(categories) == before[index := c]
    {
    }
  }
}
