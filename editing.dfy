/**
 * What the admin editor pages (the pages under app/admin/edit) share: the status line they
 * show, the outcomes of the requests they send, the add-or-edit step that
 * builds the list to save, and the comma-separated text fields.
 */
module Editing {
  import opened Common
  import opened Text
  import opened Lists
  import opened TechIcons
  import Upload

  /** The `{ text, type }` status line of an editor page; an empty text is no message. */
  datatype Message = NoMessage | Success(text: string) | Error(text: string)

  /** What one `fetch` gave the page: a response, with whether `response.ok` held, or an exception. */
  datatype Reply = Responded(ok: bool) | Thrown

  /** What an upload request gave: the route's answer, or an exception. */
  datatype UploadReply = Answered(response: Upload.UploadResponse) | UploadThrown

  /** The `filepath` member of an upload answer: the path the route stored the image under. */
  function ReadUploadedPath(r: Upload.UploadResponse): (p: Option<string>)
    ensures p == (if r.Uploaded? then Some(r.filepath) else None)
  {
    Upload.UploadedPathRoundTrip(r);
    Upload.UploadedPath(Upload.ResponseJson(r))
  }

  /**
   * The status line once a request has been answered: the success text when
   * `response.ok` held, the failure text for another response, and the error
   * text when `fetch` threw.
   */
  function ReplyMessage(reply: Reply, success: string, failure: string, error: string): (m: Message)
    ensures reply == Responded(true) <==> m == Success(success)
    ensures reply == Responded(false) ==> m == Error(failure)
    ensures reply == Thrown ==> m == Error(error)
  {
    match reply
    case Responded(ok) => if ok then Success(success) else Error(failure)
    case Thrown => Error(error)
  }

  /** What the load on opening the page gave: the parsed body, a response that was not ok, or an exception. */
  datatype Loaded<T> = Loaded(data: T) | LoadNotOk | LoadThrown

  /**
   * The list a page sends when its item form is saved: the form's item
   * appended when adding, put at the edited index when editing, and nothing
   * (the page's "Invalid state") when neither.
   */
  function SaveTarget<T>(list: seq<T>, adding: bool, editing: Option<nat>, item: T): (r: Option<seq<T>>)
    requires editing.Some? ==> editing.value < |list|
    ensures r.None? <==> !adding && editing.None?
    ensures adding ==> r.Some? && |r.value| == |list| + 1 && r.value[..|list|] == list && r.value[|list|] == item
    ensures !adding && editing.Some? ==>
              && r.Some? && |r.value| == |list| && r.value[editing.value] == item
              && forall j :: 0 <= j < |list| && j != editing.value ==> r.value[j] == list[j]
  {
    if adding then Some(list + [item])
    else if editing.Some? then Some(list[editing.value := item])
    else None
  }

  /** Deleting the item just added at the end gives back the list as it was. */
  lemma DeleteUndoesAdd<T>(list: seq<T>, item: T)
    ensures RemoveAt(SaveTarget(list, true, None, item).value, |list|) == list
  {
    var added := SaveTarget(list, true, None, item).value;
    assert added[..|list|] == list;
  }

  /** Saving an edit swaps exactly one element: the edited one goes out, the form's item comes in. */
  lemma EditSwapsOneElement<T>(list: seq<T>, k: nat, item: T)
    requires k < |list|
    ensures multiset(SaveTarget(list, false, Some(k), item).value) == multiset(list) - multiset{list[k]} + multiset{item}
  {
    var r := SaveTarget(list, false, Some(k), item).value;
    assert list == list[..k] + [list[k]] + list[k + 1..];
    assert r == list[..k] + [item] + list[k + 1..];
  }

  /**
   * `text.split(',').map(s => s.trim())`: the pieces between commas, trimmed,
   * with the empty pieces kept.
   */
  function CommaList(text: string): (r: seq<string>)
    ensures |r| >= 1
    ensures forall i :: 0 <= i < |r| ==> ',' !in r[i] && IsTrimmed(r[i])
    ensures |r| == |Split(text, ',')|
    ensures forall i :: 0 <= i < |r| ==> r[i] == Trim(Split(text, ',')[i])
  {
    var parts := Split(text, ',');
    TrimmedPieces(parts);
    TrimAll(parts)
  }

  /** Trimming pieces without commas gives trimmed pieces without commas. */
  lemma TrimmedPieces(parts: seq<string>)
    requires forall i :: 0 <= i < |parts| ==> ',' !in parts[i]
    ensures forall i :: 0 <= i < |parts| ==> ',' !in TrimAll(parts)[i] && IsTrimmed(TrimAll(parts)[i])
  {
    var r := TrimAll(parts);
    forall i | 0 <= i < |parts| ensures ',' !in r[i] && IsTrimmed(r[i]) {
      TrimWithin(parts[i], ',');
    }
  }

  /**
   * A list shown as `items.join(', ')` is read back unchanged, empty items
   * included, when no item has a comma or surrounding whitespace.
   */
  lemma CommaListRoundTrip(items: seq<string>)
    requires |items| >= 1
    requires forall i :: 0 <= i < |items| ==> ',' !in items[i] && IsTrimmed(items[i])
    ensures CommaList(Join(items, ", ")) == items
  {
    SplitCommaSpace(items);
    var parts := Split(Join(items, ", "), ',');
    forall i | 0 <= i < |items| ensures Trim(parts[i]) == items[i] {
      if i > 0 {
        TrimLeadingSpace(items[i]);
      }
      TrimIdentity(items[i]);
    }
  }

  /** Two commas in a row give an empty item between the two: `"a,,b"` is `["a", "", "b"]`. */
  lemma CommaListKeepsEmpty(a: string, b: string)
    requires ',' !in a && ',' !in b && IsTrimmed(a) && IsTrimmed(b)
    ensures CommaList(a + ",," + b) == [a, "", b]
  {
    var parts := [a, "", b];
    assert parts[1..] == ["", b] && parts[1..][1..] == [b];
    assert Join(["", b], [',']) == "" + [','] + b;
    assert Join(parts, [',']) == a + [','] + ("" + [','] + b);
    assert a + [','] + ("" + [','] + b) == a + ",," + b;
    SplitJoin(parts, ',');
    TrimIdentity(a);
    TrimIdentity("");
    TrimIdentity(b);
  }

  /** An emptied field is one empty item, not an empty list. */
  lemma CommaListOfEmpty()
    ensures CommaList("") == [""]
  {
    assert Split("", ',') == [""];
    TrimIdentity("");
  }
}
