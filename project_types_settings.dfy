/**
 * components/settings/ProjectTypesSettings.tsx: the list of an
 * organization's custom project types and the create/edit dialog. Each
 * handler is given the outcome of its request and returns the request it
 * made.
 */
module ProjectTypesSettings {
  import opened Js
  import opened Seqs
  import UseToast

  datatype ProjectType = ProjectType(
    id: string,
    name: string,
    description: Option<string>,
    defaultHourlyRate: Option<string>,
    aiPromptTemplate: Option<string>)

  /** The dialog's fields, always strings. */
  datatype FormData = FormData(name: string, description: string, defaultHourlyRate: string, aiPromptTemplate: string)

  datatype HttpMethod = Post | Patch

  datatype SaveRequest = SaveRequest(verb: HttpMethod, url: string, body: FormData)

  const CollectionUrl := "/api/organization/project-types"

  const EmptyForm := FormData("", "", "", "")

  /** The dialog filled from a type: every null field becomes `""`. */
  function FormOf(t: ProjectType): FormData {
    FormData(t.name, OrEmpty(t.description), OrEmpty(t.defaultHourlyRate), OrEmpty(t.aiPromptTemplate))
  }

  /** The saved type takes the place of every element with its id; nothing else moves. */
  function ReplacedById(types: seq<ProjectType>, saved: ProjectType): (r: seq<ProjectType>)
    ensures |r| == |types|
    ensures forall i :: 0 <= i < |types| ==> r[i] == (if types[i].id == saved.id then saved else types[i])
  {
    seq(|types|, i requires 0 <= i < |types| => if types[i].id == saved.id then saved else types[i])
  }

  /** The test `filter` applies: a different id. */
  function OtherThan(id: string): ProjectType -> bool {
    (t: ProjectType) => t.id != id
  }

  function WithoutType(types: seq<ProjectType>, id: string): seq<ProjectType> {
    Filter(types, OtherThan(id))
  }

  /**
   * With ids unique, an edit replaces exactly the one element with the saved
   * id, in place; a saved id that is not in the list changes nothing.
   */
  lemma ReplaceByIdProperties(types: seq<ProjectType>, saved: ProjectType, k: nat)
    requires forall i, j :: 0 <= i < j < |types| ==> types[i].id != types[j].id
    requires k < |types| && types[k].id == saved.id
    ensures ReplacedById(types, saved) == types[k := saved]
    ensures forall t :: t in types && t.id != saved.id ==> t in ReplacedById(types, saved)
  {
    var r := ReplacedById(types, saved);
    forall i | 0 <= i < |types| ensures r[i] == types[k := saved][i] {
      if i != k {
        assert types[i].id != types[k].id;
      }
    }
  }

  lemma ReplaceAbsentId(types: seq<ProjectType>, saved: ProjectType)
    requires forall t :: t in types ==> t.id != saved.id
    ensures ReplacedById(types, saved) == types
  {
    var r := ReplacedById(types, saved);
    forall i | 0 <= i < |types| ensures r[i] == types[i] {
      assert types[i] in types;
    }
  }

  /** Deleting takes out exactly the types with that id and keeps the order of the rest. */
  lemma DeleteIsExact(before: seq<ProjectType>, target: ProjectType, after: seq<ProjectType>)
    requires forall t :: t in before ==> t.id != target.id
    requires forall t :: t in after ==> t.id != target.id
    ensures WithoutType(before + [target] + after, target.id) == before + after
  {
    FilterDropsOne(before, target, after, OtherThan(target.id));
  }

  class ProjectTypesPage {
    var isLoading: bool
    var projectTypes: seq<ProjectType>
    var isDialogOpen: bool
    var editingType: Option<ProjectType>
    var formData: FormData
    /** Every toast raised, in order. */
    var toasts: seq<UseToast.ToastProps>

    constructor()
      ensures isLoading && projectTypes == [] && !isDialogOpen && editingType.None? && formData == EmptyForm
      ensures toasts == []
    {
      isLoading := true;
      projectTypes := [];
      isDialogOpen := false;
      editingType := None;
      formData := EmptyForm;
      toasts := [];
    }

    /** `fetchProjectTypes`: the list is replaced when the request was ok; loading ends either way. */
    method FetchProjectTypes(response: Option<seq<ProjectType>>)
      modifies this
      ensures !isLoading
      ensures projectTypes == (if response.Some? then response.value else old(projectTypes))
      ensures unchanged(this`isDialogOpen) && unchanged(this`editingType) && unchanged(this`formData)
      ensures unchanged(this`toasts)
    {
      if response.Some? {
        projectTypes := response.value;
      }
      isLoading := false;
    }

    /** `handleOpenDialog`: editing fills the fields from the type, creating empties them; the dialog opens. */
    method OpenDialog(t: Option<ProjectType>)
      modifies this
      ensures isDialogOpen && editingType == t
      ensures formData == (if t.Some? then FormOf(t.value) else EmptyForm)
      ensures unchanged(this`projectTypes) && unchanged(this`isLoading) && unchanged(this`toasts)
    {
      if t.Some? {
        editingType := t;
        formData := FormOf(t.value);
      } else {
        editingType := None;
        formData := EmptyForm;
      }
      isDialogOpen := true;
    }

    /**
     * `handleSave`: a `PATCH` to the type's own URL when editing, a `POST` to
     * the collection otherwise, with the dialog's fields. After an ok
     * response the saved type replaces its namesakes (editing) or is
     * appended (creating) and the dialog closes; otherwise the list and the
     * dialog stay as they were.
     */
    method Save(response: Option<ProjectType>) returns (request: SaveRequest)
      modifies this
      ensures request.body == old(formData)
      ensures old(editingType).Some? ==> request.verb == Patch && request.url == CollectionUrl + "/" + old(editingType).value.id
      ensures old(editingType).None? ==> request.verb == Post && request.url == CollectionUrl
      ensures response.Some? ==>
        && projectTypes == (if old(editingType).Some? then ReplacedById(old(projectTypes), response.value)
                            else old(projectTypes) + [response.value])
        && !isDialogOpen
        && toasts == old(toasts) + [UseToast.ToastProps(Some("Success"),
             Some("Project type " + (if old(editingType).Some? then "updated" else "created") + " successfully."), None)]
      ensures response.None? ==>
        && unchanged(this`projectTypes) && unchanged(this`isDialogOpen)
        && toasts == old(toasts) + [UseToast.ToastProps(Some("Error"),
             Some("Failed to save project type. Please try again."), Some(UseToast.Destructive))]
      ensures unchanged(this`editingType) && unchanged(this`formData) && unchanged(this`isLoading)
    {
      if editingType.Some? {
        request := SaveRequest(Patch, CollectionUrl + "/" + editingType.value.id, formData);
      } else {
        request := SaveRequest(Post, CollectionUrl, formData);
      }
      if response.None? {
        toasts := toasts + [UseToast.ToastProps(Some("Error"), Some("Failed to save project type. Please try again."),
                                                Some(UseToast.Destructive))];
        return;
      }
      var saved := response.value;
      if editingType.Some? {
        projectTypes := ReplacedById(projectTypes, saved);
      } else {
        projectTypes := projectTypes + [saved];
      }
      var verb := if editingType.Some? then "updated" else "created";
      toasts := toasts + [UseToast.ToastProps(Some("Success"), Some("Project type " + verb + " successfully."), None)];
      isDialogOpen := false;
    }

    /** `handleDelete`: nothing happens unless confirmed; the list changes only after an ok response. */
    method Delete(id: string, confirmed: bool, ok: bool)
      modifies this
      ensures !confirmed ==> unchanged(this)
      ensures confirmed ==>
        && projectTypes == (if ok then WithoutType(old(projectTypes), id) else old(projectTypes))
        && toasts == old(toasts) + [if ok then UseToast.ToastProps(Some("Deleted"), Some("Project type deleted successfully."), None)
             else UseToast.ToastProps(Some("Error"), Some("Failed to delete project type. Please try again."), Some(UseToast.Destructive))]
      ensures unchanged(this`isDialogOpen) && unchanged(this`editingType) && unchanged(this`formData)
      ensures unchanged(this`isLoading)
    {
      if !confirmed {
        return;
      }
      if !ok {
        toasts := toasts + [UseToast.ToastProps(Some("Error"), Some("Failed to delete project type. Please try again."),
                                                Some(UseToast.Destructive))];
        return;
      }
      projectTypes := WithoutType(projectTypes, id);
      toasts := toasts + [UseToast.ToastProps(Some("Deleted"), Some("Project type deleted successfully."), None)];
    }
  }
}
