/** The file-upload screen: up to three images are picked from the gallery into three slots,
    and a submission is checked field by field before a multipart form carrying the chosen
    images, the company, the patient, the date and the detail is posted. */
module FileUpload {

  import opened Wrappers
  import opened Text
  import opened Http
  import opened Ui
  import opened Session

  /** A picked file as the screen keeps it. */
  datatype ImageFile = ImageFile(uri: string, name: string, mimeType: string)

  /** What the gallery picker hands back: whether it was cancelled, and the URIs of its assets
      (absent when the picker gave no `assets`). */
  datatype PickResult = PickResult(canceled: bool, assets: Option<seq<string>>)

  datatype Slot = Slot1 | Slot2 | Slot3

  /** The file kept for a picked URI: its name is the URI's last '/'-separated segment. */
  function FileOf(uri: string): ImageFile {
    ImageFile(uri, LastSegment(uri, '/'), "image/jpeg")
  }

  /** The kept name is the tail of the URI after its last '/' (the whole URI when it has none),
      it holds no '/', and the type is always JPEG. */
  lemma FileOfSpec(uri: string)
    ensures var f := FileOf(uri);
      && f.uri == uri && f.mimeType == "image/jpeg"
      && |f.name| <= |uri| && f.name == uri[|uri| - |f.name|..]
      && '/' !in f.name
      && ('/' !in uri ==> f.name == uri)
      && ('/' in uri ==> |f.name| < |uri| && uri[|uri| - |f.name| - 1] == '/')
  {
    LastSegmentIsTail(uri, '/');
  }

  /** One entry of the multipart form. */
  datatype Part = FilePart(field: string, file: ImageFile) | TextPart(field: string, value: Option<string>)

  /** The field names of a form's entries, in order. */
  function FieldNames(parts: seq<Part>): (names: seq<string>)
    ensures |names| == |parts|
  {
    if parts == [] then [] else [parts[0].field] + FieldNames(parts[1..])
  }

  /** The i-th name is the i-th entry's field. */
  lemma {:induction false} FieldNamesAt(parts: seq<Part>, i: nat)
    requires i < |parts|
    ensures FieldNames(parts)[i] == parts[i].field
  {
    if i > 0 {
      FieldNamesAt(parts[1..], i - 1);
    }
  }

  /** Naming the entries of two forms one after the other names each in turn. */
  lemma {:induction false} FieldNamesAppend(ps: seq<Part>, qs: seq<Part>)
    ensures FieldNames(ps + qs) == FieldNames(ps) + FieldNames(qs)
  {
    if ps == [] {
      assert ps + qs == qs;
    } else {
      assert (ps + qs)[0] == ps[0];
      assert (ps + qs)[1..] == ps[1..] + qs;
      FieldNamesAppend(ps[1..], qs);
    }
  }

  /** The name of the form field each slot is sent under. */
  function SlotField(s: Slot): string {
    match s
    case Slot1 => "image1"
    case Slot2 => "image2"
    case Slot3 => "image3"
  }

  /** What the form carries for one slot: its file, under the slot's field name, when set. */
  function SlotPart(s: Slot, image: Option<ImageFile>): seq<Part> {
    if image.Some? then [FilePart(SlotField(s), image.value)] else []
  }

  lemma SlotPartNames(s: Slot, image: Option<ImageFile>)
    ensures FieldNames(SlotPart(s, image)) == if image.Some? then [SlotField(s)] else []
  {
  }

  /** The text entries that follow the images: the company, the patient, the date and the detail. */
  function TextParts(empresa: Option<string>, patient: string, fecha: Option<string>, detalle: Option<string>): seq<Part> {
    [TextPart("id_empresa", empresa), TextPart("id_cedula", Some(patient)), TextPart("fecha", fecha), TextPart("detalle", detalle)]
  }

  /** The whole form: the images that are set, in slot order, then the text entries. */
  function FormParts(i1: Option<ImageFile>, i2: Option<ImageFile>, i3: Option<ImageFile>,
                     empresa: Option<string>, patient: string, fecha: Option<string>, detalle: Option<string>): seq<Part> {
    SlotPart(Slot1, i1) + SlotPart(Slot2, i2) + SlotPart(Slot3, i3) + TextParts(empresa, patient, fecha, detalle)
  }

  /** The image entries name one field per chosen image, in slot order. */
  lemma ImageNames(i1: Option<ImageFile>, i2: Option<ImageFile>, i3: Option<ImageFile>)
    ensures FieldNames(SlotPart(Slot1, i1) + SlotPart(Slot2, i2) + SlotPart(Slot3, i3))
      == (if i1.Some? then ["image1"] else []) + (if i2.Some? then ["image2"] else [])
         + (if i3.Some? then ["image3"] else [])
  {
    var p1, p2, p3 := SlotPart(Slot1, i1), SlotPart(Slot2, i2), SlotPart(Slot3, i3);
    SlotPartNames(Slot1, i1);
    SlotPartNames(Slot2, i2);
    SlotPartNames(Slot3, i3);
    FieldNamesAppend(p1, p2);
    FieldNamesAppend(p1 + p2, p3);
  }

  /** The form names one field per chosen image, in slot order, then exactly the four text
      fields, and the text entries close it. */
  lemma FormPartsNames(i1: Option<ImageFile>, i2: Option<ImageFile>, i3: Option<ImageFile>,
                       empresa: Option<string>, patient: string, fecha: Option<string>, detalle: Option<string>)
    ensures FieldNames(FormParts(i1, i2, i3, empresa, patient, fecha, detalle))
      == (if i1.Some? then ["image1"] else []) + (if i2.Some? then ["image2"] else [])
         + (if i3.Some? then ["image3"] else []) + ["id_empresa", "id_cedula", "fecha", "detalle"]
    ensures var parts := FormParts(i1, i2, i3, empresa, patient, fecha, detalle);
      && |parts| >= 4 && parts[|parts| - 4..] == TextParts(empresa, patient, fecha, detalle)
      && ((i1.Some? || i2.Some? || i3.Some?) ==> |parts| >= 5)
  {
    var images := SlotPart(Slot1, i1) + SlotPart(Slot2, i2) + SlotPart(Slot3, i3);
    var rest := TextParts(empresa, patient, fecha, detalle);
    ImageNames(i1, i2, i3);
    FieldNamesAppend(images, rest);
    FieldNamesAt(rest, 0);
    FieldNamesAt(rest, 1);
    FieldNamesAt(rest, 2);
    FieldNamesAt(rest, 3);
    assert FieldNames(rest) == ["id_empresa", "id_cedula", "fecha", "detalle"];
  }

  /** Each chosen image is in the form, under its slot's field name. */
  lemma FormPartsFiles(i1: Option<ImageFile>, i2: Option<ImageFile>, i3: Option<ImageFile>,
                       empresa: Option<string>, patient: string, fecha: Option<string>, detalle: Option<string>)
    ensures var parts := FormParts(i1, i2, i3, empresa, patient, fecha, detalle);
      && (i1.Some? ==> FilePart("image1", i1.value) in parts)
      && (i2.Some? ==> FilePart("image2", i2.value) in parts)
      && (i3.Some? ==> FilePart("image3", i3.value) in parts)
  {
    var p1, p2, p3 := SlotPart(Slot1, i1), SlotPart(Slot2, i2), SlotPart(Slot3, i3);
    var rest := TextParts(empresa, patient, fecha, detalle);
    var parts := FormParts(i1, i2, i3, empresa, patient, fecha, detalle);
    if i1.Some? {
      assert parts[0] == FilePart("image1", i1.value);
    }
    if i2.Some? {
      assert parts[|p1|] == FilePart("image2", i2.value);
    }
    if i3.Some? {
      assert parts[|p1| + |p2|] == FilePart("image3", i3.value);
    }
  }

  // ---------------------------------------------------------------------------
  // Checks
  // ---------------------------------------------------------------------------

  const NoPatient := Alert("Error", "Por favor seleccione un paciente.")
  const NoDate := Alert("Error", "Por favor ingrese una fecha.")
  const NoDetail := Alert("Error", "Por favor escriba un detalle.")
  const NoFile := Alert("Error", "Debe seleccionar al menos un archivo para subir.")
  const Uploaded := Alert("Éxito", "Archivos subidos correctamente.")
  const UploadFailed := Alert("Error", "No se pudo subir el archivo.")

  /** The first check `onSubmit` fails, in its order: patient, date, detail, at least one image. */
  function FirstProblem(patient: string, fecha: Option<string>, detalle: Option<string>,
                        i1: Option<ImageFile>, i2: Option<ImageFile>, i3: Option<ImageFile>): Option<Alert>
  {
    if patient == "" then Some(NoPatient)
    else if !Truthy(fecha) then Some(NoDate)
    else if !Truthy(detalle) then Some(NoDetail)
    else if i1.None? && i2.None? && i3.None? then Some(NoFile)
    else None
  }

  /** The upload goes ahead exactly when a patient is chosen, the date and the detail are not
      empty and some slot holds an image; a missing patient is reported whatever else is
      missing, and a missing image only once everything else is there. */
  lemma FirstProblemSpec(patient: string, fecha: Option<string>, detalle: Option<string>,
                         i1: Option<ImageFile>, i2: Option<ImageFile>, i3: Option<ImageFile>)
    ensures FirstProblem(patient, fecha, detalle, i1, i2, i3).None? <==>
      patient != "" && Truthy(fecha) && Truthy(detalle) && (i1.Some? || i2.Some? || i3.Some?)
    ensures patient == "" ==> FirstProblem(patient, fecha, detalle, i1, i2, i3) == Some(NoPatient)
    ensures FirstProblem(patient, fecha, detalle, i1, i2, i3) == Some(NoFile) <==>
      patient != "" && Truthy(fecha) && Truthy(detalle) && i1.None? && i2.None? && i3.None?
  {
  }

  // ---------------------------------------------------------------------------
  // The screen
  // ---------------------------------------------------------------------------

  class FileScreen {
    const user: User
    var selectedPatient: string
    /** The two fields react-hook-form manages; `None` while it has no value for them. */
    var fecha: Option<string>
    var detalle: Option<string>
    var image1: Option<ImageFile>
    var image2: Option<ImageFile>
    var image3: Option<ImageFile>

    constructor (user: User)
      ensures this.user == user && selectedPatient == "" && fecha == None && detalle == None
      ensures image1 == None && image2 == None && image3 == None
    {
      this.user := user;
      selectedPatient := "";
      fecha, detalle := None, None;
      image1, image2, image3 := None, None, None;
    }

    function Image(s: Slot): Option<ImageFile>
      reads this
    {
      match s
      case Slot1 => image1
      case Slot2 => image2
      case Slot3 => image3
    }

    /** `pickImage`: a pick that was not cancelled and has assets fills the slot from the first
        asset; otherwise the slot keeps what it had. No other slot changes. */
    method PickImage(s: Slot, result: PickResult)
      modifies this`image1, this`image2, this`image3
      ensures !result.canceled && result.assets.Some? && |result.assets.value| > 0 ==>
        Image(s) == Some(FileOf(result.assets.value[0]))
      ensures !(!result.canceled && result.assets.Some? && |result.assets.value| > 0) ==>
        Image(s) == old(Image(s))
      ensures forall t :: t != s ==> Image(t) == old(Image(t))
    {
      if !result.canceled && result.assets.Some? && |result.assets.value| > 0 {
        var file := FileOf(result.assets.value[0]);
        match s
        case Slot1 => image1 := Some(file);
        case Slot2 => image2 := Some(file);
        case Slot3 => image3 := Some(file);
      }
    }

    /** The patient picker. */
    method SelectPatient(id: string)
      modifies this`selectedPatient
      ensures selectedPatient == id
    {
      selectedPatient := id;
    }

    /** Typing into the date or the detail field. */
    method SetFields(fecha: Option<string>, detalle: Option<string>)
      modifies this`fecha, this`detalle
      ensures this.fecha == fecha && this.detalle == detalle
    {
      this.fecha, this.detalle := fecha, detalle;
    }

    /** The multipart form `onSubmit` builds, appended entry by entry as the handler does:
        the images that are set, in slot order, then the company of the logged-in user, the
        patient, the date and the detail. */
    method AssembleFormData() returns (parts: seq<Part>)
      ensures parts == FormParts(image1, image2, image3, Prop(user, "id_empresa"), selectedPatient, fecha, detalle)
    {
      parts := [];
      if image1.Some? {
        parts := parts + [FilePart("image1", image1.value)];
      }
      if image2.Some? {
        parts := parts + [FilePart("image2", image2.value)];
      }
      if image3.Some? {
        parts := parts + [FilePart("image3", image3.value)];
      }
      ghost var images := parts;
      assert images == SlotPart(Slot1, image1) + SlotPart(Slot2, image2) + SlotPart(Slot3, image3);
      parts := parts + [TextPart("id_empresa", Prop(user, "id_empresa"))];
      parts := parts + [TextPart("id_cedula", Some(selectedPatient))];
      parts := parts + [TextPart("fecha", fecha)];
      parts := parts + [TextPart("detalle", detalle)];
      assert parts == images + TextParts(Prop(user, "id_empresa"), selectedPatient, fecha, detalle);
    }

    /** `onSubmit`: the first failed check alerts and nothing is uploaded; otherwise the form is
        posted, and a resolved post alerts and clears the patient, the two fields and the three
        slots, while a rejected one alerts and keeps everything. */
    method OnSubmit(reply: Reply<()>) returns (upload: Option<seq<Part>>, alert: Alert)
      modifies this`selectedPatient, this`fecha, this`detalle, this`image1, this`image2, this`image3
      ensures var problem := FirstProblem(old(selectedPatient), old(fecha), old(detalle), old(image1), old(image2), old(image3));
        problem.Some? ==>
          (upload == None && alert == problem.value
           && selectedPatient == old(selectedPatient) && fecha == old(fecha) && detalle == old(detalle)
           && image1 == old(image1) && image2 == old(image2) && image3 == old(image3))
      ensures FirstProblem(old(selectedPatient), old(fecha), old(detalle), old(image1), old(image2), old(image3)).None? ==>
        upload == Some(FormParts(old(image1), old(image2), old(image3), Prop(user, "id_empresa"),
                                 old(selectedPatient), old(fecha), old(detalle)))
      ensures (FirstProblem(old(selectedPatient), old(fecha), old(detalle), old(image1), old(image2), old(image3)).None?
        && reply.Response?) ==>
        alert == Uploaded && selectedPatient == "" && fecha == Some("") && detalle == Some("")
        && image1 == None && image2 == None && image3 == None
      ensures (FirstProblem(old(selectedPatient), old(fecha), old(detalle), old(image1), old(image2), old(image3)).None?
        && reply.Thrown?) ==>
        alert == UploadFailed
        && selectedPatient == old(selectedPatient) && fecha == old(fecha) && detalle == old(detalle)
        && image1 == old(image1) && image2 == old(image2) && image3 == old(image3)
    {
      if selectedPatient == "" {
        return None, NoPatient;
      }
      if !Truthy(fecha) {
        return None, NoDate;
      }
      if !Truthy(detalle) {
        return None, NoDetail;
      }
      if image1.None? && image2.None? && image3.None? {
        return None, NoFile;
      }
      var parts := AssembleFormData();
      upload := Some(parts);
      if reply.Response? {
        alert := Uploaded;
        selectedPatient := "";
        fecha, detalle := Some(""), Some("");
        image1, image2, image3 := None, None, None;
      } else {
        alert := UploadFailed;
      }
    }
  }
}
