/** The exercise record as the edit form receives it. The seven list columns
    may come back from the database as null, hence `Option`. */
module ExerciseTypes {
  import opened Common

  /** Every non-list column of an exercise. */
  datatype ExerciseDetails = ExerciseDetails(
    id: string,
    name: string,
    description: string,
    detailedSteps: string,
    executionTips: string,
    commonMistakes: string,
    categoryId: string,
    seriesMin: int, seriesMax: int,
    repsMin: int, repsMax: int,
    restSeconds: int,
    rirMin: int, rirMax: int,
    rpeMin: int, rpeMax: int,
    createdAt: string,
    createdBy: string)

  /** The seven list columns the form edits. */
  datatype ListField =
    | AlternativeNames
    | VideoLinks
    | Images
    | EquipmentIds
    | AlternativeEquipmentIds
    | MuscleIds
    | VariantIds

  datatype Exercise = Exercise(
    details: ExerciseDetails,
    alternativeNames: Option<seq<string>>,
    videoLinks: Option<seq<string>>,
    images: Option<seq<string>>,
    equipmentIds: Option<seq<string>>,
    alternativeEquipmentIds: Option<seq<string>>,
    muscleIds: Option<seq<string>>,
    variantIds: Option<seq<string>>)
  {
    function List(f: ListField): Option<seq<string>> {
      match f
      case AlternativeNames => alternativeNames
      case VideoLinks => videoLinks
      case Images => images
      case EquipmentIds => equipmentIds
      case AlternativeEquipmentIds => alternativeEquipmentIds
      case MuscleIds => muscleIds
      case VariantIds => variantIds
    }
  }

  /** `{ id, name }` rows offered as variant choices. */
  datatype ExerciseBasic = ExerciseBasic(id: string, name: string)
}

/** `EditExerciseForm`: the form record and the handlers that edit its list fields. */
module ExerciseForm {
  import opened Common
  import opened Identity
  import opened ExerciseTypes

  /** `formData`: the exercise's columns with every list present. */
  datatype FormData = FormData(
    details: ExerciseDetails,
    alternativeNames: seq<string>,
    videoLinks: seq<string>,
    images: seq<string>,
    equipmentIds: seq<string>,
    alternativeEquipmentIds: seq<string>,
    muscleIds: seq<string>,
    variantIds: seq<string>)
  {
    function Get(f: ListField): seq<string> {
      match f
      case AlternativeNames => alternativeNames
      case VideoLinks => videoLinks
      case Images => images
      case EquipmentIds => equipmentIds
      case AlternativeEquipmentIds => alternativeEquipmentIds
      case MuscleIds => muscleIds
      case VariantIds => variantIds
    }

    /** `{ ...prev, [f]: v }`. */
    function With(f: ListField, v: seq<string>): (r: FormData)
      ensures r.Get(f) == v
      ensures forall g :: g != f ==> r.Get(g) == Get(g)
      ensures r.details == details
      ensures v == Get(f) ==> r == this
    {
      match f
      case AlternativeNames => this.(alternativeNames := v)
      case VideoLinks => this.(videoLinks := v)
      case Images => this.(images := v)
      case EquipmentIds => this.(equipmentIds := v)
      case AlternativeEquipmentIds => this.(alternativeEquipmentIds := v)
      case MuscleIds => this.(muscleIds := v)
      case VariantIds => this.(variantIds := v)
    }
  }


  /** The initial `formData`: every column copied, absent lists replaced by `[]`. */
  function InitialFormData(ex: Exercise): (fd: FormData)
    ensures fd.details == ex.details
    ensures forall f :: ex.List(f).Some? ==> fd.Get(f) == ex.List(f).value
    ensures forall f :: ex.List(f).None? ==> fd.Get(f) == []
  {
    FormData(ex.details, OrEmpty(ex.alternativeNames), OrEmpty(ex.videoLinks), OrEmpty(ex.images),
             OrEmpty(ex.equipmentIds), OrEmpty(ex.alternativeEquipmentIds), OrEmpty(ex.muscleIds),
             OrEmpty(ex.variantIds))
  }

  // ---------------------------------------------------------------------------
  // The list transformations, written as the `filter` and `map` they are.

  /** `list.filter((_, i) => i !== index)`. */
  function RemovedAt(list: seq<string>, index: int): seq<string>
    decreases |list|
  {
    if list == [] then []
    else (if index == 0 then [] else [list[0]]) + RemovedAt(list[1..], index - 1)
  }

  /** `list.map((item, i) => i === index ? value : item)`. */
  function ReplacedAt(list: seq<string>, index: int, value: string): seq<string>
    decreases |list|
  {
    if list == [] then []
    else [if index == 0 then value else list[0]] + ReplacedAt(list[1..], index - 1, value)
  }

  /** Removal deletes exactly the element at an in-range index and keeps the rest in
      order; any other index leaves the list as it was. */
  lemma {:induction false} RemovedAtSpec(list: seq<string>, index: int)
    ensures 0 <= index < |list| ==> RemovedAt(list, index) == list[..index] + list[index + 1..]
    ensures !(0 <= index < |list|) ==> RemovedAt(list, index) == list
    decreases |list|
  {
    if list != [] {
      RemovedAtSpec(list[1..], index - 1);
      if index == 0 {
        assert list[1..] == list[..0] + list[1..];
      } else if 0 < index < |list| {
        assert [list[0]] + (list[1..][..index - 1] + list[1..][index..]) == list[..index] + list[index + 1..];
      } else {
        assert [list[0]] + list[1..] == list;
      }
    }
  }

  /** Replacement changes exactly the element at an in-range index and keeps the length;
      any other index leaves the list as it was. */
  lemma ReplacedAtSpec(list: seq<string>, index: int, value: string)
    ensures 0 <= index < |list| ==> ReplacedAt(list, index, value) == list[index := value]
    ensures !(0 <= index < |list|) ==> ReplacedAt(list, index, value) == list
  {
    if 0 <= index < |list| {
      ReplacedAtInRange(list, index, value);
    } else {
      ReplacedAtOutOfRange(list, index, value);
    }
  }

  lemma {:induction false} ReplacedAtInRange(list: seq<string>, index: int, value: string)
    requires 0 <= index < |list|
    ensures ReplacedAt(list, index, value) == list[index := value]
    decreases |list|
  {
    if index == 0 {
      ReplacedAtOutOfRange(list[1..], -1, value);
      assert [value] + list[1..] == list[0 := value];
    } else {
      ReplacedAtInRange(list[1..], index - 1, value);
      assert [list[0]] + list[1..][index - 1 := value] == list[index := value];
    }
  }

  lemma {:induction false} ReplacedAtOutOfRange(list: seq<string>, index: int, value: string)
    requires !(0 <= index < |list|)
    ensures ReplacedAt(list, index, value) == list
    decreases |list|
  {
    if list != [] {
      ReplacedAtOutOfRange(list[1..], index - 1, value);
      assert [list[0]] + list[1..] == list;
    }
  }

  // ---------------------------------------------------------------------------
  // Form-level handlers

  /** `handleArrayAdd(f)` and the inline "add" buttons: append one empty entry. */
  function HandleArrayAdd(fd: FormData, f: ListField): (r: FormData)
    ensures |r.Get(f)| == |fd.Get(f)| + 1
    ensures r.Get(f)[..|fd.Get(f)|] == fd.Get(f) && r.Get(f)[|fd.Get(f)|] == ""
    ensures forall g :: g != f ==> r.Get(g) == fd.Get(g)
    ensures r.details == fd.details
  {
    fd.With(f, fd.Get(f) + [""])
  }

  /** `handleArrayRemove(f, index)`, the inline "remove" buttons and image removal. */
  function HandleArrayRemove(fd: FormData, f: ListField, index: int): (r: FormData)
    ensures 0 <= index < |fd.Get(f)| ==> r.Get(f) == fd.Get(f)[..index] + fd.Get(f)[index + 1..]
    ensures !(0 <= index < |fd.Get(f)|) ==> r == fd
    ensures forall g :: g != f ==> r.Get(g) == fd.Get(g)
    ensures r.details == fd.details
  {
    RemovedAtSpec(fd.Get(f), index);
    fd.With(f, RemovedAt(fd.Get(f), index))
  }

  /** `handleArrayChange(f, index, value)`. */
  function HandleArrayChange(fd: FormData, f: ListField, index: int, value: string): (r: FormData)
    ensures |r.Get(f)| == |fd.Get(f)|
    ensures 0 <= index < |fd.Get(f)| ==> r.Get(f) == fd.Get(f)[index := value]
    ensures !(0 <= index < |fd.Get(f)|) ==> r == fd
    ensures forall g :: g != f ==> r.Get(g) == fd.Get(g)
    ensures r.details == fd.details
  {
    ReplacedAtSpec(fd.Get(f), index, value);
    fd.With(f, ReplacedAt(fd.Get(f), index, value))
  }

  /** The inline "change" handlers of the select lists: copy the list into a fresh
      array, assign one slot, and hand the copy back. The index comes from rendering
      the list, so it is always in range. */
  method InlineReplace(list: seq<string>, index: nat, value: string) returns (r: seq<string>)
    requires index < |list|
    ensures r == ReplacedAt(list, index, value)
    ensures |r| == |list| && r[index] == value
  {
    var copy := new string[|list|](k requires 0 <= k < |list| => list[k]);
    assert copy[..] == list;
    copy[index] := value;
    r := copy[..];
    ReplacedAtSpec(list, index, value);
  }

  /** A successful upload: `images: [...prev.images, publicUrl]`. */
  function AddImage(fd: FormData, publicUrl: string): (r: FormData)
    ensures r.images == fd.images + [publicUrl]
    ensures forall g :: g != Images ==> r.Get(g) == fd.Get(g)
    ensures r.details == fd.details
  {
    fd.With(Images, fd.images + [publicUrl])
  }

  /** Variant choices: every loaded exercise except the one being edited, in order. */
  function VariantOptions(exercises: seq<ExerciseBasic>, editedId: string): (options: seq<ExerciseBasic>)
    ensures forall o :: o in options <==> o in exercises && o.id != editedId
    ensures |options| <= |exercises|
    decreases |exercises|
  {
    if exercises == [] then []
    else (if exercises[0].id != editedId then [exercises[0]] else []) + VariantOptions(exercises[1..], editedId)
  }

  // ---------------------------------------------------------------------------
  // The component's state

  /** How an image upload ended: no file chosen, no session, a storage error, or the public URL. */
  datatype UploadReply = NoFile | NoSession | UploadFailed(message: string) | Uploaded(publicUrl: string)

  /** The PUT response: ok, an error body (whose `error` may be missing), or a rejected fetch. */
  datatype SaveReply = SaveOk | SaveRejected(errorField: Option<string>) | SaveThrew(message: string)

  /** The component's visible effects, in order. */
  datatype Effect =
    | Toast(notice: Notice)
    | Put(path: string, authorization: string, body: FormData)
    | Navigate(path: string)
    | Refresh

  const NoSessionText: string := "No hay sesión"
  const UploadedText: string := "Imagen subida exitosamente"
  const UploadErrorText: string := "Error al subir la imagen"
  const SavedText: string := "Ejercicio actualizado exitosamente"
  const SaveErrorText: string := "Error al actualizar ejercicio"

  /** `Bearer ${session?.access_token}`: a missing session is rendered as the text "undefined". */
  function BearerHeader(session: Option<Session>): (h: string)
    ensures session.Some? ==> h == "Bearer " + session.value.accessToken
    ensures session.None? ==> h == "Bearer undefined"
  {
    "Bearer " + (if session.Some? then session.value.accessToken else "undefined")
  }

  /** The effects of `handleSubmit`: the PUT of the whole form to the exercise's own
      path, then either the success toast and the move to the list, or an error toast. */
  function SaveEffects(exerciseId: string, session: Option<Session>, fd: FormData, reply: SaveReply): (es: seq<Effect>)
    ensures |es| >= 2 && es[0] == Put("/api/admin/exercises/" + exerciseId, BearerHeader(session), fd)
    ensures reply.SaveOk? ==> es[1..] == [Toast(SuccessNotice(SavedText)), Navigate("/admin/exercises"), Refresh]
    ensures reply.SaveRejected? ==> es[1..] == [Toast(ErrorNotice(OrElse(reply.errorField, SaveErrorText)))]
    ensures reply.SaveThrew? ==> es[1..] == [Toast(ErrorNotice(OrElse(Some(reply.message), SaveErrorText)))]
    ensures Navigate("/admin/exercises") in es <==> reply.SaveOk?
  {
    var request := Put("/api/admin/exercises/" + exerciseId, BearerHeader(session), fd);
    match reply
    case SaveOk => [request, Toast(SuccessNotice(SavedText)), Navigate("/admin/exercises"), Refresh]
    case SaveRejected(errorField) =>
      // thrown as `new Error(error.error || default)`, shown as `error.message || default`
      [request, Toast(ErrorNotice(OrElse(Some(OrElse(errorField, SaveErrorText)), SaveErrorText)))]
    case SaveThrew(message) => [request, Toast(ErrorNotice(OrElse(Some(message), SaveErrorText)))]
  }

  class Editor {
    /** The id of the exercise the form was opened for (`exercise.id` of the props). */
    const exerciseId: string
    var formData: FormData
    var loading: bool
    var effects: seq<Effect>

    constructor (exercise: Exercise)
      ensures exerciseId == exercise.details.id
      ensures formData == InitialFormData(exercise) && !loading && effects == []
    {
      exerciseId := exercise.details.id;
      formData := InitialFormData(exercise);
      loading := false;
      effects := [];
    }

    method ArrayAdd(f: ListField)
      modifies this
      ensures formData == HandleArrayAdd(old(formData), f)
      ensures loading == old(loading) && effects == old(effects)
    {
      formData := HandleArrayAdd(formData, f);
    }

    method ArrayRemove(f: ListField, index: int)
      modifies this
      ensures formData == HandleArrayRemove(old(formData), f, index)
      ensures loading == old(loading) && effects == old(effects)
    {
      formData := HandleArrayRemove(formData, f, index);
    }

    method ArrayChange(f: ListField, index: int, value: string)
      modifies this
      ensures formData == HandleArrayChange(old(formData), f, index, value)
      ensures loading == old(loading) && effects == old(effects)
    {
      formData := HandleArrayChange(formData, f, index, value);
    }

    /** The select lists' change handler: the same result as `handleArrayChange`. */
    method InlineChange(f: ListField, index: nat, value: string)
      requires index < |formData.Get(f)|
      modifies this
      ensures formData == HandleArrayChange(old(formData), f, index, value)
      ensures loading == old(loading) && effects == old(effects)
    {
      var updated := InlineReplace(formData.Get(f), index, value);
      formData := formData.With(f, updated);
    }

    /** `handleImageUpload`. */
    method UploadImage(reply: UploadReply)
      modifies this
      ensures reply.NoFile? ==> formData == old(formData) && loading == old(loading) && effects == old(effects)
      ensures reply.Uploaded? ==>
        formData == AddImage(old(formData), reply.publicUrl) && effects == old(effects) + [Toast(SuccessNotice(UploadedText))]
      ensures reply.NoSession? ==>
        formData == old(formData) && effects == old(effects) + [Toast(ErrorNotice(NoSessionText))]
      ensures reply.UploadFailed? ==>
        formData == old(formData) && effects == old(effects) + [Toast(ErrorNotice(OrElse(Some(reply.message), UploadErrorText)))]
      ensures !reply.NoFile? ==> !loading
    {
      if reply.NoFile? {
        return;
      }
      loading := true;
      match reply {
        case NoSession =>
          effects := effects + [Toast(ErrorNotice(OrElse(Some(NoSessionText), UploadErrorText)))];
        case UploadFailed(message) =>
          effects := effects + [Toast(ErrorNotice(OrElse(Some(message), UploadErrorText)))];
        case Uploaded(publicUrl) =>
          formData := AddImage(formData, publicUrl);
          effects := effects + [Toast(SuccessNotice(UploadedText))];
      }
      loading := false;
    }

    /** `handleSubmit`: the form itself is not changed by saving. */
    method Save(session: Option<Session>, reply: SaveReply)
      modifies this
      ensures formData == old(formData) && !loading
      ensures effects == old(effects) + SaveEffects(exerciseId, session, old(formData), reply)
    {
      loading := true;
      effects := effects + SaveEffects(exerciseId, session, formData, reply);
      loading := false;
    }
  }
}
