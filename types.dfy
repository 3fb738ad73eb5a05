/** Shapes of the client's data (lib/types.ts), the abstract outcome of an HTTP
    request, and the navigation events the handlers emit. */
module Types {

  datatype Option<+T> = None | Some(value: T)

  /** JavaScript truthiness of a value that is a string, `null` or `undefined`:
      present and not the empty string. */
  predicate Truthy(s: Option<string>) {
    s.Some? && s.value != ""
  }

  // ---------- users ----------

  datatype Rol = USER | ADMIN

  datatype User = User(id: string, username: string, email: string, rol: Rol)

  // ---------- scrims ----------

  datatype ScrimState = BUSCANDO | LOBBY_ARMADO | CONFIRMADO | EN_JUEGO | FINALIZADO | CANCELADO
  {
    /** The wire spelling, which the card badge displays. */
    function Name(): string {
      match this
      case BUSCANDO => "BUSCANDO"
      case LOBBY_ARMADO => "LOBBY_ARMADO"
      case CONFIRMADO => "CONFIRMADO"
      case EN_JUEGO => "EN_JUEGO"
      case FINALIZADO => "FINALIZADO"
      case CANCELADO => "CANCELADO"
    }
  }

  datatype Formato = FORMATO_1V1 | FORMATO_3V3 | FORMATO_5V5

  /** A scrim as the server sends it. `fechaHora` is an abstract timestamp. */
  datatype Scrim = Scrim(
    id: string,
    juego: string,
    formato: Formato,
    region: string,
    rangoMin: string,
    rangoMax: string,
    fechaHora: int,
    estado: ScrimState,
    organizadorId: string,
    cupo: Option<int>,
    descripcion: Option<string>,
    latenciaMax: Option<int>,
    duracion: Option<int>,
    modalidad: Option<string>,
    matchmakingStrategyType: Option<string>)

  // ---------- applications ("postulaciones") ----------

  datatype PostulationState = PENDIENTE | ACEPTADA | RECHAZADA
  {
    function Name(): string {
      match this
      case PENDIENTE => "PENDIENTE"
      case ACEPTADA => "ACEPTADA"
      case RECHAZADA => "RECHAZADA"
    }
  }

  /** One entry of "my scrims": the scrim and the state of my application,
      under both of the spellings the server might use. */
  datatype MyScrimResponse = MyScrimResponse(
    scrim: Scrim,
    postulacionState: Option<PostulationState>,
    postulationState: Option<PostulationState>)

  // ---------- feedback ----------

  /** A feedback entry's moderation state. The pending state is spelled
      `PENDIENTE` on the wire; its constructor carries a prefix because
      `PostulationState` already has a `PENDIENTE`. */
  datatype ModerationState = MODERATION_PENDIENTE | APROBADO | RECHAZADO

  datatype Feedback = Feedback(
    id: string,
    scrimId: string,
    reviewerId: string,
    targetUserId: string,
    rating: int,
    comment: string,
    moderationState: ModerationState,
    createdAt: int,
    reviewerUsername: Option<string>,
    targetUsername: Option<string>)

  // ---------- requests and navigation ----------

  /** The `data` of a failed response, as far as the pages look into it:
      an `error` message and the `detalles` of a validation failure (the values
      of that object, in order). */
  datatype ErrorBody = ErrorBody(error: Option<string>, detalles: Option<seq<string>>)

  /** The outcome of one HTTP request: its data, or a failure that may carry a
      response body (`None` when there was no response or no body). */
  datatype Response<+T> = Ok(data: T) | Failed(body: Option<ErrorBody>)

  /** A navigation the code asks the router for. */
  datatype Nav = NavRoot | NavLogin
  {
    function Path(): string {
      match this
      case NavRoot => "/"
      case NavLogin => "/login"
    }
  }
}
