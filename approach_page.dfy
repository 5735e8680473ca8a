/**
 * app/admin/edit/approach/page.tsx: the list of approach phases, edited
 * locally field by field and sent whole to the approach route.
 */
module ApproachPage {
  import opened Common
  import opened Text
  import opened Lists
  import opened Content
  import opened Editing
  import ApproachRoute

  datatype PhaseField = Title | Phase | Description

  /** The phase that "Add Phase" appends to a list of `count` phases. */
  function NewPhase(count: nat): (p: ApproachPhase)
    ensures p.title == "New Phase" && p.description == "Description of this phase"
    ensures p.phase == "Phase " + NatToString(count + 1)
  {
    ApproachPhase("New Phase", "Phase " + NatToString(count + 1), "Description of this phase")
  }

  class ApproachEditor {
    var approaches: seq<ApproachPhase>
    /** The error, which replaces the whole page. */
    var error: string

    /**
     * The page after its initial load; a failed load leaves the list empty
     * with the error "Error loading approaches".
     */
    constructor (load: Loaded<seq<ApproachPhase>>)
      ensures approaches == (if load.Loaded? then load.data else [])
      ensures error == (if load.Loaded? then "" else "Error loading approaches")
    {
      if load.Loaded? {
        approaches := load.data;
        error := "";
      } else {
        approaches := [];
        error := "Error loading approaches";
      }
    }

    /**
     * `handleInputChange`: the phase at `index` is replaced by a fresh record
     * differing in `field` alone; the other phases are untouched.
     */
    method InputChange(index: nat, field: PhaseField, value: string)
      requires index < |approaches|
      modifies this`approaches
      ensures |approaches| == |old(approaches)|
      ensures forall j :: 0 <= j < |approaches| && j != index ==> approaches[j] == old(approaches)[j]
      ensures field == Title ==> approaches[index] == old(approaches)[index].(title := value)
      ensures field == Phase ==> approaches[index] == old(approaches)[index].(phase := value)
      ensures field == Description ==> approaches[index] == old(approaches)[index].(description := value)
    {
      var p := approaches[index];
      var updated := match field
        case Title => p.(title := value)
        case Phase => p.(phase := value)
        case Description => p.(description := value);
      approaches := approaches[index := updated];
    }

    /** `handleAddApproach`: a new phase, numbered one past the current count, is appended. */
    method AddApproach()
      modifies this`approaches
      ensures approaches == old(approaches) + [NewPhase(|old(approaches)|)]
    {
      approaches := approaches + [NewPhase(|approaches|)];
    }

    /** `handleRemoveApproach`: the phase at `index` leaves the list; the others keep their order. */
    method RemoveApproach(index: nat)
      modifies this`approaches
      ensures approaches == RemoveAt(old(approaches), index)
      ensures index < |old(approaches)| ==> multiset(approaches) + multiset{old(approaches)[index]} == multiset(old(approaches))
    {
      if index < |approaches| {
        RemoveAtMultiset(approaches, index);
      }
      approaches := RemoveAt(approaches, index);
    }

    /**
     * `handleSave`: the whole list is sent; an ok answer raises the alert
     * "Approaches updated successfully!", any other outcome sets the error
     * "Failed to update approaches".
     */
    method Save(reply: Reply) returns (sent: seq<ApproachPhase>, alerted: bool)
      modifies this`error
      ensures sent == approaches
      ensures alerted <==> reply == Responded(true)
      ensures error == if reply == Responded(true) then old(error) else "Failed to update approaches"
    {
      sent := approaches;
      alerted := reply == Responded(true);
      if !alerted {
        error := "Failed to update approaches";
      }
    }
  }

  /**
   * Removing phase `k` from a freshly loaded list and saving it does not
   * shorten the stored list: the route writes the shortened list over the
   * first positions and the old last phase stays in place.
   */
  lemma {:induction false} RemovalIsNotStored(stored: seq<ApproachPhase>, k: nat)
    requires k < |stored|
    ensures ApproachRoute.Overlay(stored, RemoveAt(stored, k)) == RemoveAt(stored, k) + [stored[|stored| - 1]]
  {
    var items := RemoveAt(stored, k);
    var r := ApproachRoute.Overlay(stored, items);
    var e := items + [stored[|stored| - 1]];
    assert |r| == |e|;
    forall j | 0 <= j < |r| ensures r[j] == e[j] {
      if j < |items| {
        assert r[j] == items[j];
      } else {
        assert j == |stored| - 1;
      }
    }
  }

  /**
   * Saving a freshly loaded list with one phase added is answered 500, and
   * the stored list is the one that was loaded: the new phase is never stored.
   */
  lemma AdditionIsNotStored(stored: seq<ApproachPhase>)
    ensures var items := stored + [NewPhase(|stored|)];
            !(|items| <= |stored|) && ApproachRoute.Overlay(stored, items) == stored
  {
    var items := stored + [NewPhase(|stored|)];
    assert items[..|stored|] == stored;
  }
}
