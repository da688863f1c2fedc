/** components/CreateDatasetModal.tsx: the create-dataset dialog: ordered validation, the
    trimmed request, and the form reset on success and on closing. */
module CreateDatasetModal {
  import opened Text
  import opened Domain
  import opened Effects
  import DatasetFilters

  const LICENSE_TYPES: seq<string> :=
    ["MIT", "Apache-2.0", "GPL-3.0", "BSD-3-Clause", "CC BY 4.0", "Public Domain"]

  /** The category labels; the select offers each one lowercased as its value. */
  const CATEGORIES: seq<string> :=
    ["Text", "Image", "Audio", "Video", "Tabular", "Time Series", "Graph", "Other"]

  const NameRequired := "Dataset name is required"
  const DescriptionRequired := "Description is required"
  const CategoryRequired := "Please select at least one category"
  const LicenseRequired := "Please select a license"
  const CreateFailed := "Failed to create dataset. Please check the console for details."

  datatype CreateForm = CreateForm(
    name: string, description: string, visibility: string, categories: seq<string>, license: string)

  /** The form the dialog starts with and returns to. */
  const DefaultForm := CreateForm("", "", "public", [], LICENSE_TYPES[0])

  /** The license filter offers 'All' followed by exactly the licenses a dataset can be created
      with. */
  lemma LicenseListsAgree()
    ensures DatasetFilters.LICENSES[0] == DatasetFilters.NoFilter
    ensures DatasetFilters.LICENSES[1..] == LICENSE_TYPES
    ensures DefaultForm.license == "MIT"
  {
  }

  /** The checks in `handleSubmit`, in source order; the first failure gives its message. */
  function Validate(f: CreateForm): (r: Option<string>)
    ensures IsBlank(f.name) ==> r == Some(NameRequired)
    ensures !IsBlank(f.name) && IsBlank(f.description) ==> r == Some(DescriptionRequired)
    ensures !IsBlank(f.name) && !IsBlank(f.description) && f.categories == [] ==> r == Some(CategoryRequired)
    ensures !IsBlank(f.name) && !IsBlank(f.description) && f.categories != [] && f.license == "" ==>
              r == Some(LicenseRequired)
    ensures r.None? <==> !IsBlank(f.name) && !IsBlank(f.description) && f.categories != [] && f.license != ""
  {
    if IsBlank(f.name) then Some(NameRequired)
    else if IsBlank(f.description) then Some(DescriptionRequired)
    else if |f.categories| == 0 then Some(CategoryRequired)
    else if f.license == "" then Some(LicenseRequired)
    else None
  }

  /** The `createDataset` argument: name and description trimmed, the rest as entered. */
  function Payload(f: CreateForm): (p: CreateDatasetParams)
    ensures p.name == Trim(f.name) && p.description == Trim(f.description)
    ensures p.visibility == f.visibility && p.category_tags == f.categories && p.license == f.license
  {
    CreateDatasetParams(Trim(f.name), Trim(f.description), f.visibility, f.categories, f.license)
  }

  /** A form that passes validation sends a non-empty name and description that no further
      trimming would change, and at least one category. */
  lemma ValidPayload(f: CreateForm)
    requires Validate(f).None?
    ensures Payload(f).name != [] && Trim(Payload(f).name) == Payload(f).name
    ensures Payload(f).description != [] && Trim(Payload(f).description) == Payload(f).description
    ensures Payload(f).category_tags != [] && Payload(f).license != ""
  {
    BlankIffTrimEmpty(f.name);
    BlankIffTrimEmpty(f.description);
    TrimIdempotent(f.name);
    TrimIdempotent(f.description);
  }

  /** `error instanceof Error && error.message ? error.message : fallback`: an empty message
      also falls back. */
  function FailureMessage(t: Thrown): (m: string)
    ensures t.Error? && t.message != "" ==> m == t.message
    ensures !(t.Error? && t.message != "") ==> m == CreateFailed
    ensures m != ""
  {
    if t.Error? && t.message != "" then t.message else CreateFailed
  }

  /** The values the category select reports, label by label. */
  const CATEGORY_VALUES: seq<string> :=
    ["text", "image", "audio", "video", "tabular", "time series", "graph", "other"]

  /** Each label lowercases to its value. */
  lemma CategoriesLowered()
    ensures |CATEGORY_VALUES| == |CATEGORIES|
    ensures forall i | 0 <= i < |CATEGORIES| :: Lower(CATEGORIES[i]) == CATEGORY_VALUES[i]
  {
    forall i | 0 <= i < |CATEGORIES| ensures Lower(CATEGORIES[i]) == CATEGORY_VALUES[i] {
      LowerPointwise(CATEGORIES[i], CATEGORY_VALUES[i]);
    }
  }

  /** `category.toLowerCase()`: the value the category select reports for the `i`th label. */
  function CategoryValue(i: nat): (v: string)
    requires i < |CATEGORIES|
    ensures v == CATEGORY_VALUES[i]
  {
    CategoriesLowered();
    Lower(CATEGORIES[i])
  }

  /** Different labels report different values, and none of them is empty. */
  lemma CategoryValuesDistinct(i: nat, j: nat)
    requires i < |CATEGORIES| && j < |CATEGORIES|
    ensures CategoryValue(i) != ""
    ensures i != j ==> CategoryValue(i) != CategoryValue(j)
  {
  }

  class CreateDatasetModalView {
    var isOpen: bool
    var isLoading: bool
    var error: Option<string>
    var formData: CreateForm
    var calls: seq<Call>

    constructor ()
      ensures !isOpen && !isLoading && error == None && formData == DefaultForm && calls == []
    {
      isOpen := false;
      isLoading := false;
      error := None;
      formData := DefaultForm;
      calls := [];
    }

    /** The dialog's `onOpenChange`: closing this way also clears the error and the form. */
    method OpenChange(open: bool)
      modifies this`isOpen, this`error, this`formData
      ensures isOpen == open
      ensures !open ==> error == None && formData == DefaultForm
      ensures open ==> error == old(error) && formData == old(formData)
    {
      isOpen := open;
      if !open {
        error := None;
        formData := DefaultForm;
      }
    }

    /** The Cancel button sets the open flag directly, so the form and the error are kept.
        It is disabled while a create is in flight. */
    method CancelClick()
      requires !isLoading
      modifies this`isOpen
      ensures !isOpen
    {
      isOpen := false;
    }

    /** The text inputs and the visibility and license selects replace one field each. */
    method Edit(f: CreateForm)
      modifies this`formData
      ensures formData == f
    {
      formData := f;
    }

    /** The category select: choosing the `i`th label makes the list that label's value alone. */
    method SelectCategory(i: nat)
      requires i < |CATEGORIES|
      modifies this`formData
      ensures formData == old(formData).(categories := [CategoryValue(i)])
    {
      formData := formData.(categories := [CategoryValue(i)]);
    }

    /** `handleSubmit`: a validation failure shows its message and sends nothing; otherwise the
        trimmed request is sent, success closes the dialog and resets the form, and failure
        keeps the form and shows the failure message. Loading ends false either way. */
    method HandleSubmit(reply: Reply<()>)
      modifies this
      ensures Validate(old(formData)).Some? ==>
                error == Validate(old(formData)) && calls == old(calls) && formData == old(formData)
                && isOpen == old(isOpen) && isLoading == old(isLoading)
      ensures Validate(old(formData)).None? ==>
                calls == old(calls) + [CreateDataset(Payload(old(formData)))] && !isLoading
      ensures Validate(old(formData)).None? && reply.Ok? ==>
                !isOpen && formData == DefaultForm && error == None
      ensures Validate(old(formData)).None? && reply.Threw? ==>
                isOpen == old(isOpen) && formData == old(formData) && error == Some(FailureMessage(reply.thrown))
    {
      var problem := Validate(formData);
      if problem.Some? {
        error := problem;
        return;
      }
      var request := CreateDataset(Payload(formData));
      error := None;
      isLoading := true;
      calls := calls + [request];
      if reply.Ok? {
        isOpen := false;
        formData := DefaultForm;
      } else {
        error := Some(FailureMessage(reply.thrown));
      }
      isLoading := false;
    }
  }
}
