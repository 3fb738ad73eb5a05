/** The form that publishes a new scrim (app/create-scrim/page.tsx): the field
    handlers with their numeric coercion, the future-date check before the
    request and the choice of error message after a failed one. */
module CreateScrimPage {
  import opened Types
  import opened AuthContext
  import JsNumber
  import RouteGuard

  datatype ScrimForm = ScrimForm(
    juego: string,
    formato: string,
    region: string,
    rangoMin: string,
    rangoMax: string,
    latenciaMax: int,
    fechaHora: string,
    duracion: int,
    modalidad: string,
    descripcion: string,
    cupo: int,
    matchmakingStrategyType: string)

  const InitialForm: ScrimForm :=
    ScrimForm("Valorant", "FORMATO_5V5", "LATAM", "Oro", "Platino", 100, "", 60, "RANKED", "", 10, "BY_MMR")

  /** The fields fed by text, date-time and select inputs. */
  datatype TextField =
    Juego | Formato | Region | RangoMin | RangoMax | FechaHora | Modalidad | Descripcion | MatchmakingStrategyType

  /** The fields fed by `type="number"` inputs. */
  datatype NumberField = LatenciaMax | Duracion | Cupo

  /** A change event: the input's `name`, its raw `value`, and whether its
      `type` is `"number"`. */
  datatype ChangeEvent = TextInput(textField: TextField, value: string) | NumberInput(numberField: NumberField, value: string)

  function TextValue(f: ScrimForm, name: TextField): (r: string) {
    match name
    case Juego => f.juego
    case Formato => f.formato
    case Region => f.region
    case RangoMin => f.rangoMin
    case RangoMax => f.rangoMax
    case FechaHora => f.fechaHora
    case Modalidad => f.modalidad
    case Descripcion => f.descripcion
    case MatchmakingStrategyType => f.matchmakingStrategyType
  }

  function NumberValue(f: ScrimForm, name: NumberField): (r: int) {
    match name
    case LatenciaMax => f.latenciaMax
    case Duracion => f.duracion
    case Cupo => f.cupo
  }

  /** `{ ...prev, [name]: value }` for a text field; this is all of
      `handleSelectChange`. */
  function SetText(f: ScrimForm, name: TextField, value: string): (r: ScrimForm)
    ensures TextValue(r, name) == value
    ensures forall other: TextField :: other != name ==> TextValue(r, other) == TextValue(f, other)
    ensures forall n: NumberField :: NumberValue(r, n) == NumberValue(f, n)
  {
    match name
    case Juego => f.(juego := value)
    case Formato => f.(formato := value)
    case Region => f.(region := value)
    case RangoMin => f.(rangoMin := value)
    case RangoMax => f.(rangoMax := value)
    case FechaHora => f.(fechaHora := value)
    case Modalidad => f.(modalidad := value)
    case Descripcion => f.(descripcion := value)
    case MatchmakingStrategyType => f.(matchmakingStrategyType := value)
  }

  function SetNumber(f: ScrimForm, name: NumberField, value: int): (r: ScrimForm)
    ensures NumberValue(r, name) == value
    ensures forall other: NumberField :: other != name ==> NumberValue(r, other) == NumberValue(f, other)
    ensures forall t: TextField :: TextValue(r, t) == TextValue(f, t)
  {
    match name
    case LatenciaMax => f.(latenciaMax := value)
    case Duracion => f.(duracion := value)
    case Cupo => f.(cupo := value)
  }

  /** `handleChange`: a number input stores `parseInt(value) || 0`, any other
      input stores its raw value; only the named field changes. */
  function HandleChange(f: ScrimForm, e: ChangeEvent): (r: ScrimForm)
    ensures e.TextInput? ==> TextValue(r, e.textField) == e.value
    ensures e.TextInput? ==> forall n: NumberField :: NumberValue(r, n) == NumberValue(f, n)
    ensures e.TextInput? ==> forall t: TextField :: t != e.textField ==> TextValue(r, t) == TextValue(f, t)
    ensures e.NumberInput? ==> NumberValue(r, e.numberField) == JsNumber.ParseIntOrZero(e.value)
    ensures e.NumberInput? ==> forall t: TextField :: TextValue(r, t) == TextValue(f, t)
    ensures e.NumberInput? ==> forall n: NumberField :: n != e.numberField ==> NumberValue(r, n) == NumberValue(f, n)
  {
    match e
    case TextInput(name, value) => SetText(f, name, value)
    case NumberInput(name, value) => SetNumber(f, name, JsNumber.ParseIntOrZero(value))
  }

  /** A number typed as a decimal numeral is stored as that number, and input
      with no digit at all is stored as 0. */
  lemma NumberInputStores(f: ScrimForm, name: NumberField, n: int, junk: string)
    requires forall i :: 0 <= i < |junk| ==> !JsNumber.IsDecimalDigit(junk[i])
    ensures NumberValue(HandleChange(f, NumberInput(name, JsNumber.DecimalString(n))), name) == n
    ensures NumberValue(HandleChange(f, NumberInput(name, junk)), name) == 0
  {
    var typed := JsNumber.DecimalString(n);
    assert typed + "" == typed;
    JsNumber.ParseIntOfDecimal(n, "");
    assert JsNumber.ParseIntOrZero(typed) == n;
    JsNumber.ParseIntWithoutDigits(junk);
    assert JsNumber.ParseIntOrZero(junk) == 0;
  }

  // ---------- submitting ----------

  const PastDateMessage: string := "La fecha y hora deben ser en el futuro."
  const GenericCreateError: string := "Ocurrió un error al crear el scrim."
  const ValidationPrefix: string := "Error de validación: "

  /** `!(new Date(fechaHora) <= new Date())`, with the date already parsed:
      `None` is an invalid date, whose NaN compares false, so it is not refused. */
  predicate PassesDateCheck(when: Option<int>, now: int)
    ensures when.None? ==> PassesDateCheck(when, now)
    ensures when.Some? ==> (PassesDateCheck(when, now) <==> now < when.value)
  {
    when.None? || when.value > now
  }

  /** The message after a failed request: the first value of the backend's
      `detalles` when the response carries that object (`undefined` when the
      object is empty), the generic message otherwise. */
  function CreateErrorMessage(body: Option<ErrorBody>): (m: string)
    ensures body.Some? && body.value.detalles.Some? && body.value.detalles.value != [] ==>
      m == ValidationPrefix + body.value.detalles.value[0]
    ensures body.Some? && body.value.detalles.Some? && body.value.detalles.value == [] ==>
      m == ValidationPrefix + "undefined"
    ensures body.None? || body.value.detalles.None? ==> m == GenericCreateError
  {
    if body.Some? && body.value.detalles.Some? then
      var values := body.value.detalles.value;
      ValidationPrefix + (if values != [] then values[0] else "undefined")
    else GenericCreateError
  }

  datatype CreateView = WaitingView | FormView(form: ScrimForm, error: Option<string>)

  class CreateScrimPageState {
    var formData: ScrimForm
    var error: Option<string>

    constructor ()
      ensures formData == InitialForm && error.None?
    {
      formData, error := InitialForm, None;
    }

    /** The render: the waiting view until the session is loaded and signed
        in (the page's effect redirects with `RouteGuard.LoginRedirect`). */
    function View(auth: AuthView): (v: CreateView)
      reads this
      ensures v.WaitingView? <==> RouteGuard.ShowsWaiting(auth)
      ensures v.FormView? ==> v.form == formData && v.error == error
    {
      if RouteGuard.ShowsWaiting(auth) then WaitingView else FormView(formData, error)
    }

    method HandleInputChange(e: ChangeEvent)
      modifies this`formData
      ensures formData == HandleChange(old(formData), e)
    {
      formData := HandleChange(formData, e);
    }

    method HandleSelectChange(name: TextField, value: string)
      modifies this`formData
      ensures formData == SetText(old(formData), name, value)
    {
      formData := SetText(formData, name, value);
    }

    /** `handleSubmit`, up to the request: the error is cleared; a date that is
        not after `now` sets the date error and nothing is posted; otherwise
        the whole form is posted. `parseDate` stands for `new Date(...)`. */
    method Submit(now: int, parseDate: string -> Option<int>) returns (request: Option<ScrimForm>)
      modifies this`error
      ensures request.Some? <==> PassesDateCheck(parseDate(formData.fechaHora), now)
      ensures request.Some? ==> request.value == formData && error.None?
      ensures request.None? ==> error == Some(PastDateMessage)
    {
      error := None;
      var when := parseDate(formData.fechaHora);
      if when.Some? && when.value <= now {
        error := Some(PastDateMessage);
        return None;
      }
      request := Some(formData);
    }

    /** `handleSubmit`, after the response: success asks for the dashboard,
        failure shows the chosen message. */
    method FinishSubmit(response: Response<()>) returns (nav: Option<Nav>)
      modifies this`error
      ensures response.Ok? ==> nav == Some(NavRoot) && error == old(error)
      ensures response.Failed? ==> nav.None? && error == Some(CreateErrorMessage(response.body))
    {
      match response {
        case Ok(_) => nav := Some(NavRoot);
        case Failed(body) =>
          error := Some(CreateErrorMessage(body));
          nav := None;
      }
    }
  }
}
