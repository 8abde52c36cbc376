/** The consultation screen: the form is filled from the first consultation the backend lists
    (or left empty), an existing consultation can be edited and saved with PATCH or finalized,
    and when none exists a new one can be created from a modal. Which of these the buttons
    allow depends only on whether the form holds a consultation id. */
module Consultation {

  import opened Wrappers
  import opened Text
  import opened Decimal
  import opened Http
  import opened Ui
  import opened Session

  datatype FormField =
    | IdConsulta | IdCedula | IdEmpresa | Tipoconsulta | Valoracion
    | PresionArterial | FrecuenciaCardiaca | SaturacionOxigeno | Glicemia | FrecuenciaRespiratoria
    | PlanTratamiento | FechaConsulta | MontoConsulta

  /** `formData`: the text of each field; a field holding `null` or `undefined` has no entry. */
  type Form = map<FormField, string>

  function Get(form: Form, f: FormField): Option<string> {
    if f in form then Some(form[f]) else None
  }

  /** `{ ...form, [f]: v }` for a value that may be null. */
  function Put(form: Form, f: FormField, v: Option<string>): Form {
    if v.Some? then form[f := v.value] else form - {f}
  }

  /** `formData.f` is truthy. */
  predicate Filled(form: Form, f: FormField) {
    Truthy(Get(form, f))
  }

  /** The form `setFormData` receives when there is no consultation: every field empty except
      the company, which comes from the logged-in user. */
  function EmptyForm(id_empresa: Option<string>): Form {
    var blank := map[IdConsulta := "", IdCedula := "", Tipoconsulta := "", Valoracion := "",
                     PresionArterial := "", FrecuenciaCardiaca := "", SaturacionOxigeno := "",
                     Glicemia := "", FrecuenciaRespiratoria := "", PlanTratamiento := "",
                     FechaConsulta := "", MontoConsulta := ""];
    Put(blank, IdEmpresa, id_empresa)
  }

  /** The empty form holds "" in every field but the company, which is the one given. */
  lemma EmptyFormFields(id_empresa: Option<string>, f: FormField)
    ensures Get(EmptyForm(id_empresa), IdEmpresa) == id_empresa
    ensures f != IdEmpresa ==> Get(EmptyForm(id_empresa), f) == Some("")
  {
  }

  /** An emptied form can be neither saved nor created from, and offers only "Crear Consulta". */
  lemma EmptyFormOffersOnlyCreate(id_empresa: Option<string>)
    ensures !SaveReady(EmptyForm(id_empresa)) && !CreateReady(EmptyForm(id_empresa))
    ensures Enabled(EmptyForm(id_empresa), CreateButton)
    ensures !Enabled(EmptyForm(id_empresa), EditButton) && !Enabled(EmptyForm(id_empresa), FinalizeButton)
  {
    EmptyFormFields(id_empresa, IdConsulta);
    EmptyFormFields(id_empresa, Tipoconsulta);
  }

  /** One consultation as `GET /consultation` lists it; text fields may be null. */
  datatype ConsultationRecord = ConsultationRecord(
    id_consulta: int,
    id_cedula: Option<string>,
    tipoconsulta: Option<string>,
    valoracion: Option<string>,
    presion_arterial: Option<string>,
    frecuencia_cardiaca: Option<string>,
    saturacion_oxigeno: Option<string>,
    glicemia: Option<string>,
    frecuencia_respiratoria: Option<string>,
    plan_tratamiento: Option<string>,
    fecha_consulta: string,
    monto_consulta: Option<string>)

  /** What a loaded form should show in field `f`, read field by field from the record: the id
      as decimal text, the date cut before its first 'T', the other fields as they are. */
  function RecordValue(c: ConsultationRecord, f: FormField): Option<string>
    requires f != IdEmpresa
  {
    match f
    case IdConsulta => Some(IntToString(c.id_consulta))
    case IdCedula => c.id_cedula
    case Tipoconsulta => c.tipoconsulta
    case Valoracion => c.valoracion
    case PresionArterial => c.presion_arterial
    case FrecuenciaCardiaca => c.frecuencia_cardiaca
    case SaturacionOxigeno => c.saturacion_oxigeno
    case Glicemia => c.glicemia
    case FrecuenciaRespiratoria => c.frecuencia_respiratoria
    case PlanTratamiento => c.plan_tratamiento
    case FechaConsulta => Some(DatePart(c.fecha_consulta))
    case MontoConsulta => c.monto_consulta
  }

  const AllFields: set<FormField> := {IdConsulta, IdCedula, IdEmpresa, Tipoconsulta, Valoracion,
    PresionArterial, FrecuenciaCardiaca, SaturacionOxigeno, Glicemia, FrecuenciaRespiratoria,
    PlanTratamiento, FechaConsulta, MontoConsulta}

  /** `{ ...formData, id_consulta: c.id_consulta.toString(), ..., fecha_consulta: c.fecha_consulta.split('T')[0], ... }`:
      every field but the company is overwritten from the record. */
  function FillFromRecord(form: Form, c: ConsultationRecord): Form {
    map f | f in AllFields && (if f == IdEmpresa then f in form else RecordValue(c, f).Some?)
      :: if f == IdEmpresa then form[f] else RecordValue(c, f).value
  }

  /** Loading a record sets every field to the record's value and keeps only the company. */
  lemma FillFromRecordField(form: Form, c: ConsultationRecord, f: FormField)
    ensures f == IdEmpresa ==> Get(FillFromRecord(form, c), f) == Get(form, IdEmpresa)
    ensures f != IdEmpresa ==> Get(FillFromRecord(form, c), f) == RecordValue(c, f)
  {
  }

  /** The loaded id reads back as the record's id, the loaded date holds no 'T' and is the
      record's date up to its first 'T', and the loaded form enables editing and finalizing. */
  lemma FillFromRecordSpec(form: Form, c: ConsultationRecord)
    ensures var l := FillFromRecord(form, c);
      && Filled(l, IdConsulta)
      && Enabled(l, EditButton) && Enabled(l, FinalizeButton) && !Enabled(l, CreateButton)
      && ParseInt(l[IdConsulta]) == Some(c.id_consulta)
      && FechaConsulta in l && 'T' !in l[FechaConsulta] && l[FechaConsulta] <= c.fecha_consulta
  {
    var l := FillFromRecord(form, c);
    FillFromRecordField(form, c, IdConsulta);
    FillFromRecordField(form, c, FechaConsulta);
    assert l[IdConsulta] == IntToString(c.id_consulta);
    assert l[IdConsulta] != "";
    ParseIntOfIntToString(c.id_consulta);
    assert l[FechaConsulta] == Split(c.fecha_consulta, "T")[0];
    SplitCharFirst(c.fecha_consulta, 'T');
  }

  // ---------------------------------------------------------------------------
  // Validation
  // ---------------------------------------------------------------------------

  /** The check `handleSaveConsultation` makes before a PATCH. */
  predicate SaveReady(form: Form) {
    && Filled(form, IdConsulta) && Filled(form, IdCedula) && Filled(form, Tipoconsulta)
    && Filled(form, PlanTratamiento) && Filled(form, FechaConsulta)
  }

  /** The check `handleModalSaveConsultation` makes before a POST. */
  predicate CreateReady(form: Form) {
    && Filled(form, Tipoconsulta) && Filled(form, Valoracion) && Filled(form, PlanTratamiento)
    && Filled(form, FechaConsulta) && Filled(form, MontoConsulta)
  }

  /** Creating does not look at the patient or the id, saving does not look at the assessment
      or the amount: each check depends on its own five fields only. */
  lemma ValidatorsIgnoreOtherFields(form: Form, f: FormField, v: Option<string>)
    ensures f !in {Tipoconsulta, Valoracion, PlanTratamiento, FechaConsulta, MontoConsulta} ==>
      (CreateReady(Put(form, f, v)) <==> CreateReady(form))
    ensures f !in {IdConsulta, IdCedula, Tipoconsulta, PlanTratamiento, FechaConsulta} ==>
      (SaveReady(Put(form, f, v)) <==> SaveReady(form))
  {
    forall g | g != f ensures Get(Put(form, f, v), g) == Get(form, g) {
      PutKeepsOthers(form, f, v, g);
    }
  }

  lemma PutKeepsOthers(form: Form, f: FormField, v: Option<string>, g: FormField)
    ensures Get(Put(form, f, v), f) == v
    ensures g != f ==> Get(Put(form, f, v), g) == Get(form, g)
  {
  }

  // ---------------------------------------------------------------------------
  // The PATCH payload
  // ---------------------------------------------------------------------------

  datatype Payload = Payload(
    id_consulta: Option<int>,
    id_cedula: string,
    id_empresa: Option<string>,
    tipoconsulta: string,
    valoracion: Option<string>,
    presion_arterial: string,
    frecuencia_cardiaca: string,
    saturacion_oxigeno: string,
    glicemia: string,
    frecuencia_respiratoria: string,
    plan_tratamiento: string,
    fecha_consulta: string,
    monto_consulta: string,
    estado: int)

  /** The suffix the date gets before it is sent. */
  const Midnight := "T00:00:00.000Z"

  /** `form.f || fallback`. */
  function OrElse(form: Form, f: FormField, fallback: string): string {
    if Filled(form, f) then form[f] else fallback
  }

  function BuildPayload(form: Form): Payload
    requires SaveReady(form)
  {
    Payload(
      ParseInt(form[IdConsulta]), form[IdCedula], Get(form, IdEmpresa), form[Tipoconsulta],
      Get(form, Valoracion),
      OrElse(form, PresionArterial, ""), OrElse(form, FrecuenciaCardiaca, ""),
      OrElse(form, SaturacionOxigeno, ""), OrElse(form, Glicemia, ""),
      OrElse(form, FrecuenciaRespiratoria, ""),
      form[PlanTratamiento], form[FechaConsulta] + Midnight,
      OrElse(form, MontoConsulta, "0.00"), 1)
  }

  /** What the payload sends for vital sign `f`. */
  function VitalSent(p: Payload, f: FormField): string
    requires f in VitalSigns
  {
    match f
    case PresionArterial => p.presion_arterial
    case FrecuenciaCardiaca => p.frecuencia_cardiaca
    case SaturacionOxigeno => p.saturacion_oxigeno
    case Glicemia => p.glicemia
    case FrecuenciaRespiratoria => p.frecuencia_respiratoria
  }

  const VitalSigns: set<FormField> :=
    {PresionArterial, FrecuenciaCardiaca, SaturacionOxigeno, Glicemia, FrecuenciaRespiratoria}

  /** A vital sign is sent as entered, and as "" when it is missing or empty. */
  lemma PayloadVital(form: Form, f: FormField)
    requires SaveReady(form) && f in VitalSigns
    ensures !Filled(form, f) ==> VitalSent(BuildPayload(form), f) == ""
    ensures Filled(form, f) ==> VitalSent(BuildPayload(form), f) == form[f]
  {
  }

  /** The payload marks the consultation active; it carries the id as `parseInt` reads it, and
      the patient, company, kind, assessment and plan as the form holds them; it always carries
      an amount ("0.00" when none was entered) and text for every vital sign (the entered text,
      or "" for a missing one); and its date splits back on 'T' to the form's date whenever
      that date holds no 'T'. */
  lemma PayloadSpec(form: Form)
    requires SaveReady(form)
    ensures var p := BuildPayload(form);
      && p.estado == 1
      && p.id_consulta == ParseInt(form[IdConsulta])
      && p.id_cedula == form[IdCedula] && p.tipoconsulta == form[Tipoconsulta]
      && p.plan_tratamiento == form[PlanTratamiento]
      && p.id_empresa == Get(form, IdEmpresa) && p.valoracion == Get(form, Valoracion)
      && p.monto_consulta != ""
      && (!Filled(form, MontoConsulta) ==> p.monto_consulta == "0.00")
      && (Filled(form, MontoConsulta) ==> p.monto_consulta == form[MontoConsulta])
      && (forall f :: f in VitalSigns ==> VitalSent(p, f) == OrElse(form, f, ""))
      && ('T' !in form[FechaConsulta] ==> DatePart(p.fecha_consulta) == form[FechaConsulta])
  {
    forall f | f in VitalSigns ensures VitalSent(BuildPayload(form), f) == OrElse(form, f, "") {
      PayloadVital(form, f);
    }
    if 'T' !in form[FechaConsulta] {
      assert form[FechaConsulta] + Midnight == form[FechaConsulta] + ['T'] + Midnight[1..];
      SplitCharFirstOfConcat(form[FechaConsulta], 'T', Midnight[1..]);
    }
  }

  /** Saving a loaded consultation unedited sends back the record's own id and calendar day. */
  lemma SaveAfterLoadRoundTrip(form: Form, c: ConsultationRecord)
    requires SaveReady(FillFromRecord(form, c))
    ensures BuildPayload(FillFromRecord(form, c)).id_consulta == Some(c.id_consulta)
    ensures DatePart(BuildPayload(FillFromRecord(form, c)).fecha_consulta) == DatePart(c.fecha_consulta)
  {
    FillFromRecordSpec(form, c);
    FillFromRecordField(form, c, FechaConsulta);
    PayloadSpec(FillFromRecord(form, c));
  }

  // ---------------------------------------------------------------------------
  // Buttons and modes
  // ---------------------------------------------------------------------------

  datatype Button = EditButton | FinalizeButton | CreateButton

  /** Edit and finalize are enabled while the form holds a consultation id, create while it does not. */
  function Enabled(form: Form, b: Button): bool {
    match b
    case EditButton => Filled(form, IdConsulta)
    case FinalizeButton => Filled(form, IdConsulta)
    case CreateButton => !Filled(form, IdConsulta)
  }

  /** The three states of the screen: an existing consultation shown or edited, or none yet. */
  datatype Mode = ViewingExisting | EditingExisting | CreatingNew

  function ModeOf(form: Form, isEditing: bool): (m: Mode)
    ensures m == CreatingNew <==> Enabled(form, CreateButton)
    ensures m != CreatingNew <==> Enabled(form, EditButton) && Enabled(form, FinalizeButton)
  {
    if !Filled(form, IdConsulta) then CreatingNew
    else if isEditing then EditingExisting
    else ViewingExisting
  }

  /** Exactly one of the two ways forward is open: edit-and-finalize, or create. */
  lemma ModesExclusive(form: Form)
    ensures Enabled(form, EditButton) == Enabled(form, FinalizeButton)
    ensures Enabled(form, CreateButton) != Enabled(form, EditButton)
  {
  }

  // ---------------------------------------------------------------------------
  // The screen
  // ---------------------------------------------------------------------------

  const LoadFailed := Alert("Error", "No se pudo cargar la consulta.")
  const MissingFields := Alert("Error", "Por favor complete todos los campos obligatorios.")
  const Updated := Alert("Consulta actualizada exitosamente.", "")
  const Finalized := Alert("Consulta Finalizada", "")
  const FinalizeFailed := Alert("Error", "No se pudo finalizar la consulta.")
  const CreatedAlert := Alert("Éxito", "Consulta creada exitosamente.")
  const CreateFailed := Alert("Error", "No se pudo crear la consulta. Inténtelo nuevamente.")

  /** `response.data` of `GET /consultation`: its `code` and its `data`, absent when missing. */
  datatype ListBody = ListBody(code: Code, data: Option<seq<ConsultationRecord>>)

  /** The PATCH that finalizes: the consultation's path and the body `{ estado: 1 }`. */
  datatype FinalizeRequest = FinalizeRequest(path: string, estado: int)

  predicate Succeeded(reply: Reply<()>) {
    reply.Response? && (reply.status == 200 || reply.status == 201)
  }

  /** The reply lists a consultation: code "200" (the string, compared strictly) and a
      non-empty list. */
  predicate ListsConsultation(reply: Reply<ListBody>) {
    reply.Response? && StrictlyEqualsString(reply.body.code, "200")
    && reply.body.data.Some? && |reply.body.data.value| > 0
  }

  /** Reading `response.data.data.length` throws when code "200" comes without a list. */
  predicate LoadThrows(reply: Reply<ListBody>) {
    reply.Thrown? || (StrictlyEqualsString(reply.body.code, "200") && reply.body.data.None?)
  }

  /** The form `fetchConsultationData` leaves, from the form it started with, the company of
      the logged-in user and the reply. */
  function Loaded(form: Form, id_empresa: Option<string>, reply: Reply<ListBody>): Form {
    if LoadThrows(reply) then form
    else if ListsConsultation(reply) then FillFromRecord(form, reply.body.data.value[0])
    else EmptyForm(id_empresa)
  }

  /** The alert `fetchConsultationData` shows. */
  function LoadAlert(reply: Reply<ListBody>): Option<Alert> {
    if LoadThrows(reply) then Some(LoadFailed) else None
  }

  /** A load that alerts keeps the form. One that does not enables edit and finalize exactly
      when the reply listed a consultation, whose id the form then reads back as; otherwise the
      form is emptied and only create is offered. */
  lemma LoadOutcome(form: Form, id_empresa: Option<string>, reply: Reply<ListBody>)
    ensures LoadAlert(reply).Some? ==> Loaded(form, id_empresa, reply) == form
    ensures LoadAlert(reply).None? ==>
      (Enabled(Loaded(form, id_empresa, reply), EditButton) <==> ListsConsultation(reply))
    ensures LoadAlert(reply).None? && ListsConsultation(reply) ==>
      ParseInt(Loaded(form, id_empresa, reply)[IdConsulta]) == Some(reply.body.data.value[0].id_consulta)
    ensures LoadAlert(reply).None? && !ListsConsultation(reply) ==>
      Loaded(form, id_empresa, reply) == EmptyForm(id_empresa)
      && !Enabled(Loaded(form, id_empresa, reply), EditButton)
      && Enabled(Loaded(form, id_empresa, reply), CreateButton)
  {
    if !LoadThrows(reply) {
      if ListsConsultation(reply) {
        FillFromRecordSpec(form, reply.body.data.value[0]);
      } else {
        EmptyFormOffersOnlyCreate(id_empresa);
      }
    }
  }

  /** The request the second button sends: the save's PATCH payload or the finalizing PATCH. */
  datatype Patch = SavePatch(payload: Payload) | FinalizePatch(request: FinalizeRequest)

  /** The alert `handleSaveConsultation` shows for a complete form. */
  function SaveAlert(reply: Reply<()>): Option<Alert> {
    if Succeeded(reply) then Some(Updated) else None
  }

  /** The alert `handleFinalizeConsultation` shows. */
  function FinalizeAlert(reply: Reply<()>): Option<Alert> {
    if Succeeded(reply) then Some(Finalized) else if reply.Thrown? then Some(FinalizeFailed) else None
  }

  function FinalizeRequestFor(form: Form): FinalizeRequest {
    FinalizeRequest("/consultation/" + Get(form, IdConsulta).GetOr("undefined"), 1)
  }

  function AlertSeq(a: Option<Alert>): seq<Alert> {
    if a.Some? then [a.value] else []
  }

  class ConsultationScreen {
    const user: User
    var formData: Form
    var isEditing: bool
    var isModalVisible: bool

    constructor (user: User)
      ensures this.user == user
      ensures formData == EmptyForm(Prop(user, "id_empresa")) && !isEditing && !isModalVisible
    {
      this.user := user;
      formData := EmptyForm(Prop(user, "id_empresa"));
      isEditing := false;
      isModalVisible := false;
    }

    /** `fetchConsultationData`: code "200" (the string, compared strictly) with a non-empty list
        fills the form from the first record; any other answer empties the form; a thrown error,
        or code "200" without a list, alerts and keeps the form. */
    method FetchConsultationData(reply: Reply<ListBody>) returns (alert: Option<Alert>)
      modifies this`formData
      ensures formData == Loaded(old(formData), Prop(user, "id_empresa"), reply)
      ensures alert == LoadAlert(reply)
    {
      if LoadThrows(reply) {
        alert := Some(LoadFailed);
      } else if ListsConsultation(reply) {
        formData := FillFromRecord(formData, reply.body.data.value[0]);
        alert := None;
      } else {
        formData := EmptyForm(Prop(user, "id_empresa"));
        alert := None;
      }
    }

    /** `handleChange` and `handleModalChange`: only field `f` changes. */
    method HandleChange(f: FormField, v: string)
      modifies this`formData
      ensures Get(formData, f) == Some(v)
      ensures forall g :: g != f ==> Get(formData, g) == Get(old(formData), g)
    {
      formData := formData[f := v];
    }

    /** "Editar Consulta": toggles editing while it is enabled. */
    method PressEdit()
      modifies this`isEditing
      ensures Enabled(formData, EditButton) ==> isEditing == !old(isEditing)
      ensures !Enabled(formData, EditButton) ==> isEditing == old(isEditing)
    {
      if Enabled(formData, EditButton) {
        isEditing := !isEditing;
      }
    }

    /** "Crear Consulta": opens the modal while it is enabled. */
    method PressCreate()
      modifies this`isModalVisible
      ensures isModalVisible == (old(isModalVisible) || Enabled(formData, CreateButton))
    {
      if Enabled(formData, CreateButton) {
        isModalVisible := true;
      }
    }

    /** `handleSaveConsultation`: an incomplete form alerts and sends nothing; otherwise the
        payload is sent, status 200 or 201 ends editing, and any failure is swallowed without
        an alert and without a change. */
    method HandleSaveConsultation(reply: Reply<()>) returns (sent: Option<Payload>, alert: Option<Alert>)
      modifies this`isEditing
      ensures formData == old(formData)
      ensures !SaveReady(formData) ==> sent == None && alert == Some(MissingFields) && isEditing == old(isEditing)
      ensures SaveReady(formData) ==> sent == Some(BuildPayload(formData))
      ensures SaveReady(formData) && Succeeded(reply) ==> !isEditing && alert == Some(Updated)
      ensures SaveReady(formData) && !Succeeded(reply) ==> isEditing == old(isEditing) && alert == None
    {
      if !SaveReady(formData) {
        sent, alert := None, Some(MissingFields);
        return;
      }
      sent := Some(BuildPayload(formData));
      if Succeeded(reply) {
        isEditing := false;
        alert := Some(Updated);
      } else {
        alert := None;
      }
    }

    /** `handleFinalizeConsultation`: PATCH `{ estado: 1 }` to the consultation; status 200 or 201
        empties the form (the company comes from the user) and ends editing; a thrown error
        alerts and changes nothing. */
    method HandleFinalizeConsultation(reply: Reply<()>) returns (request: FinalizeRequest, alert: Option<Alert>)
      modifies this`formData, this`isEditing
      ensures request == FinalizeRequestFor(old(formData))
      ensures Succeeded(reply) ==>
        formData == EmptyForm(Prop(user, "id_empresa")) && !isEditing && alert == Some(Finalized)
      ensures !Succeeded(reply) ==> formData == old(formData) && isEditing == old(isEditing)
      ensures reply.Response? && !Succeeded(reply) ==> alert == None
      ensures reply.Thrown? ==> alert == Some(FinalizeFailed)
    {
      request := FinalizeRequestFor(formData);
      if Succeeded(reply) {
        formData := EmptyForm(Prop(user, "id_empresa"));
        isEditing := false;
        alert := Some(Finalized);
      } else if reply.Thrown? {
        alert := Some(FinalizeFailed);
      } else {
        alert := None;
      }
    }

    /** The second button: while editing it saves, otherwise it finalizes; it does nothing while
        the form holds no consultation id. */
    method PressFinalize(reply: Reply<()>) returns (sent: Option<Patch>, alert: Option<Alert>)
      modifies this`formData, this`isEditing
      ensures !Enabled(old(formData), FinalizeButton) ==>
        sent == None && formData == old(formData) && isEditing == old(isEditing) && alert == None
      ensures Enabled(old(formData), FinalizeButton) && old(isEditing) && !SaveReady(old(formData)) ==>
        sent == None && formData == old(formData) && isEditing && alert == Some(MissingFields)
      ensures Enabled(old(formData), FinalizeButton) && old(isEditing) && SaveReady(old(formData)) ==>
        sent == Some(SavePatch(BuildPayload(old(formData)))) && formData == old(formData)
        && isEditing == !Succeeded(reply) && alert == SaveAlert(reply)
      ensures Enabled(old(formData), FinalizeButton) && !old(isEditing) ==>
        sent == Some(FinalizePatch(FinalizeRequestFor(old(formData)))) && !isEditing
        && formData == (if Succeeded(reply) then EmptyForm(Prop(user, "id_empresa")) else old(formData))
        && alert == FinalizeAlert(reply)
    {
      if !Enabled(formData, FinalizeButton) {
        return None, None;
      }
      if isEditing {
        var payload;
        payload, alert := HandleSaveConsultation(reply);
        sent := if payload.Some? then Some(SavePatch(payload.value)) else None;
      } else {
        var request;
        request, alert := HandleFinalizeConsultation(reply);
        sent := Some(FinalizePatch(request));
      }
    }

    /** `handleModalSaveConsultation`: an incomplete form alerts and sends nothing; otherwise the
        form is posted with the user's company; status 200 or 201 closes the modal and reloads
        the form with `reload`; a thrown error alerts. */
    method HandleModalSaveConsultation(reply: Reply<()>, reload: Reply<ListBody>)
      returns (sent: Option<Form>, alerts: seq<Alert>)
      modifies this`formData, this`isModalVisible
      ensures !CreateReady(old(formData)) ==>
        sent == None && alerts == [MissingFields] && formData == old(formData) && isModalVisible == old(isModalVisible)
      ensures CreateReady(old(formData)) ==> sent == Some(Put(old(formData), IdEmpresa, Prop(user, "id_empresa")))
      ensures CreateReady(old(formData)) && Succeeded(reply) ==>
        !isModalVisible && formData == Loaded(old(formData), Prop(user, "id_empresa"), reload)
        && alerts == [CreatedAlert] + AlertSeq(LoadAlert(reload))
      ensures CreateReady(old(formData)) && !Succeeded(reply) ==>
        formData == old(formData) && isModalVisible == old(isModalVisible)
        && alerts == (if reply.Thrown? then [CreateFailed] else [])
    {
      if !CreateReady(formData) {
        sent, alerts := None, [MissingFields];
        return;
      }
      sent := Some(Put(formData, IdEmpresa, Prop(user, "id_empresa")));
      if Succeeded(reply) {
        isModalVisible := false;
        var reloadAlert := FetchConsultationData(reload);
        alerts := [CreatedAlert] + AlertSeq(reloadAlert);
      } else if reply.Thrown? {
        alerts := [CreateFailed];
      } else {
        alerts := [];
      }
    }

    /** The modal's "Cancelar": closes it and empties the form. */
    method CancelModal()
      modifies this`formData, this`isModalVisible
      ensures !isModalVisible && formData == EmptyForm(Prop(user, "id_empresa"))
    {
      isModalVisible := false;
      formData := EmptyForm(Prop(user, "id_empresa"));
    }
  }
}
