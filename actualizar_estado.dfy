/** ActualizarEstadoAppService: check the requested state, find the
    shipment, check the transition, update it with a history row, drop its
    cache entry and answer with the whole history. */
module ActualizarEstado {
  import opened Wrappers
  import opened Text
  import opened EnvioEntity
  import opened EnvioRepository
  import opened Exceptions
  import opened RedisCache
  import opened PostgresRepository
  import opened ClavesCache
  import opened Coherencia

  const ESTADO_INVALIDO: string := "Estado inválido"
  const GUIA_NO_ENCONTRADA: string := "Guía no encontrada"
  const TRANSICION_NO_PERMITIDA: string := "Transición de estado no permitida"

  /** The request body: the state arrives as text. */
  datatype EntradaEstado = EntradaEstado(estado: string, ubicacion: Option<string>, observacion: Option<string>)

  /** One history row as the response lists it (its timestamp left out). */
  datatype CambioEstado = CambioEstado(estadoAnterior: Option<Estado>, estadoNuevo: Estado, ubicacion: Option<string>, observacion: Option<string>)

  /** The response of a successful update. */
  datatype Actualizacion = Actualizacion(
    numeroGuia: string,
    estadoAnterior: Estado,
    estadoActual: Estado,
    mensaje: string,
    historialEstados: seq<CambioEstado>)

  /** `ESTADOS_VALIDOS.join(', ')`. */
  function EstadosPermitidos(): string {
    Join(seq(|ESTADOS_VALIDOS|, i requires 0 <= i < |ESTADOS_VALIDOS| => Literal(ESTADOS_VALIDOS[i])), ", ")
  }

  lemma EstadosPermitidosTexto()
    ensures EstadosPermitidos() == "En espera, En tránsito, Entregado"
  {
    var ls := seq(|ESTADOS_VALIDOS|, i requires 0 <= i < |ESTADOS_VALIDOS| => Literal(ESTADOS_VALIDOS[i]));
    assert ls == ["En espera", "En tránsito", "Entregado"];
    JoinTres("En espera", "En tránsito", "Entregado", ", ");
  }

  function MensajeEstadoInvalido(estado: string): string {
    "El estado \"" + estado + "\" no es válido. Estados permitidos: " + EstadosPermitidos()
  }

  function MensajeGuiaNoEncontrada(numeroGuia: string): string {
    "No se encontró ningún envío con la guía: " + numeroGuia
  }

  function MensajeTransicion(actual: Estado, nuevo: string): string {
    "No se puede cambiar de \"" + Literal(actual) + "\" a \"" + nuevo + "\". La secuencia válida es: En espera → En tránsito → Entregado"
  }

  function MensajeActualizado(anterior: Estado, actual: Estado): string {
    "Estado actualizado correctamente de \"" + Literal(anterior) + "\" a \"" + Literal(actual) + "\""
  }

  /** The three guards of `run`, in their order: the exception it throws
      before touching anything, or none when the update goes ahead. */
  function Rechazo(estado: string, actual: Option<Envio>, numeroGuia: string): (r: Option<Exception>)
    ensures r.None? <==> ParseEstado(estado).Some? && actual.Some? && ValidarTransicionEstado(actual.value.estado, ParseEstado(estado).value)
    ensures r.None? ==> Rank(ParseEstado(estado).value) == Rank(actual.value.estado) + 1
    ensures r.Some? ==> r.value.statusCode == BadRequest && r.value.code == BadMessage
    ensures !EsEstadoValido(estado) ==> r == Some(BadMessageException(ESTADO_INVALIDO, MensajeEstadoInvalido(estado)))
    ensures EsEstadoValido(estado) && actual.None? ==>
              r == Some(BadMessageException(GUIA_NO_ENCONTRADA, MensajeGuiaNoEncontrada(numeroGuia)))
    ensures actual.Some? && actual.value.estado == Entregado ==> r.Some?
  {
    match ParseEstado(estado)
    case None => Some(BadMessageException(ESTADO_INVALIDO, MensajeEstadoInvalido(estado)))
    case Some(nuevo) =>
      if actual.None? then Some(BadMessageException(GUIA_NO_ENCONTRADA, MensajeGuiaNoEncontrada(numeroGuia)))
      else if !ValidarTransicionEstado(actual.value.estado, nuevo) then
        Some(BadMessageException(TRANSICION_NO_PERMITIDA, MensajeTransicion(actual.value.estado, estado)))
      else
        TransicionEsUnPaso(actual.value.estado, nuevo);
        None
  }

  /** The history as the response lists it, row for row. */
  function Cambios(h: seq<HistorialEstado>): (r: seq<CambioEstado>)
    ensures |r| == |h|
    ensures forall i :: 0 <= i < |h| ==>
      r[i] == CambioEstado(h[i].estadoAnterior, h[i].estadoNuevo, h[i].ubicacion, h[i].observacion)
  {
    seq(|h|, i requires 0 <= i < |h| => CambioEstado(h[i].estadoAnterior, h[i].estadoNuevo, h[i].ubicacion, h[i].observacion))
  }

  function ActualizacionDe(anterior: Envio, actualizado: Envio, h: seq<HistorialEstado>): Actualizacion {
    Actualizacion(actualizado.numeroGuia, anterior.estado, actualizado.estado,
                  MensajeActualizado(anterior.estado, actualizado.estado), Cambios(h))
  }

  /** A shipment walks the whole lifecycle in two accepted updates, and
      every third request is refused. */
  lemma CicloCompleto(e: Envio, g: string)
    requires e.estado == EnEspera
    ensures Rechazo(Literal(EnTransito), Some(e), g).None?
    ensures Rechazo(Literal(Entregado), Some(e.(estado := EnTransito)), g).None?
    ensures forall s :: Rechazo(s, Some(e.(estado := Entregado)), g).Some?
    ensures Rechazo(Literal(Entregado), Some(e), g).Some?
  {
    ParseLiteral(EnTransito);
    ParseLiteral(Entregado);
  }

  /** The database half of `run` after the guards: updateEstado, then
      getHistorial of the updated shipment. */
  method ActualizarEnBase(repo: PostgresEnvioRepository, numeroGuia: string, actual: Envio, nuevo: Estado, data: EntradaEstado)
    returns (actualizado: Envio, historial: seq<HistorialEstado>)
    requires repo.Valid() && repo.FindByGuia(numeroGuia) == Some(actual)
    modifies repo
    ensures repo.Valid()
    ensures var prev := old(repo.envios[numeroGuia]);
      var fila := FilaCambio(old(repo.siguienteIdHistorial), prev, nuevo, data.ubicacion, data.observacion);
      repo.envios == old(repo.envios)[numeroGuia := prev.(estado := nuevo)]
      && repo.historial == old(repo.historial) + [fila]
      && repo.unidades == old(repo.unidades)
      && actualizado == actual.(estado := nuevo)
      && historial == old(HistorialDe(repo.historial, prev.id)) + [fila]
  {
    ghost var prev := repo.envios[numeroGuia];
    HistorialDeAgregar(repo.historial, FilaCambio(repo.siguienteIdHistorial, prev, nuevo, data.ubicacion, data.observacion), prev.id);
    var leido := repo.UpdateEstado(numeroGuia, nuevo, data.ubicacion, data.observacion);
    // The 'Error de actualización' branch: updateEstado reads back the row
    // it has just updated, so it is never null here.
    assert leido.Some?;
    actualizado := leido.value;
    historial := repo.GetHistorial(actualizado.id);
  }

  /** The part of `run` after the guards: update the state with a history
      row, drop the cache entry, read the history back and answer. */
  method Aplicar(cache: RedisCacheService, repo: PostgresEnvioRepository, numeroGuia: string, actual: Envio, nuevo: Estado, data: EntradaEstado)
    returns (r: Actualizacion)
    requires repo.Valid() && repo.FindByGuia(numeroGuia) == Some(actual)
    modifies repo, cache`store
    ensures repo.Valid()
    ensures var prev := old(repo.envios[numeroGuia]);
      var fila := FilaCambio(old(repo.siguienteIdHistorial), prev, nuevo, data.ubicacion, data.observacion);
      repo.envios == old(repo.envios)[numeroGuia := prev.(estado := nuevo)]
      && repo.historial == old(repo.historial) + [fila]
      && repo.unidades == old(repo.unidades)
      && cache.store == (if cache.IsConnected() then old(cache.store) - {EnvioCacheKey(numeroGuia)} else old(cache.store))
      && r == ActualizacionDe(actual, actual.(estado := nuevo), old(HistorialDe(repo.historial, prev.id)) + [fila])
    ensures cache.IsConnected() && old(Coherente(cache.store, repo)) ==> Coherente(cache.store, repo)
  {
    if cache.IsConnected() && Coherente(cache.store, repo) {
      ActualizarCoherente(cache.store, repo.envios, repo.unidades, repo.historial, repo.siguienteIdHistorial,
                          numeroGuia, nuevo, data.ubicacion, data.observacion);
      Borrar(cache.store, repo.envios, repo.unidades, repo.historial, repo.tarifas, EnvioCacheKey(numeroGuia));
    }
    var actualizado, historial := ActualizarEnBase(repo, numeroGuia, actual, nuevo, data);
    cache.Del(EnvioCacheKey(numeroGuia), false);
    r := ActualizacionDe(actual, actualizado, historial);
  }

  /** run. The cache commands do not fail here (a failing one behaves like
      a disconnected cache). */
  method Run(cache: RedisCacheService, repo: PostgresEnvioRepository, numeroGuia: string, data: EntradaEstado)
    returns (r: Result<Actualizacion, Falla>)
    requires repo.Valid()
    modifies repo, cache`store
    ensures repo.Valid()
    ensures var rechazo := Rechazo(data.estado, old(repo.FindByGuia(numeroGuia)), numeroGuia);
      rechazo.Some? ==> r == Failure(Excepcion(rechazo.value)) && unchanged(repo) && cache.store == old(cache.store)
    ensures var anterior := old(repo.FindByGuia(numeroGuia));
      Rechazo(data.estado, anterior, numeroGuia).None? ==>
        var nuevo := ParseEstado(data.estado).value;
        var fila := FilaCambio(old(repo.siguienteIdHistorial), old(repo.envios[numeroGuia]), nuevo, data.ubicacion, data.observacion);
        repo.envios == old(repo.envios)[numeroGuia := old(repo.envios[numeroGuia]).(estado := nuevo)]
        && repo.historial == old(repo.historial) + [fila]
        && cache.store == (if cache.IsConnected() then old(cache.store) - {EnvioCacheKey(numeroGuia)} else old(cache.store))
        && r == Success(ActualizacionDe(anterior.value, anterior.value.(estado := nuevo), old(repo.GetHistorial(anterior.value.id)) + [fila]))
    ensures cache.IsConnected() && old(Coherente(cache.store, repo)) ==> Coherente(cache.store, repo)
  {
    var nuevo := ParseEstado(data.estado);
    if nuevo.None? {
      return Failure(Excepcion(BadMessageException(ESTADO_INVALIDO, MensajeEstadoInvalido(data.estado))));
    }
    var envioActual := repo.FindByGuia(numeroGuia);
    if envioActual.None? {
      return Failure(Excepcion(BadMessageException(GUIA_NO_ENCONTRADA, MensajeGuiaNoEncontrada(numeroGuia))));
    }
    if !ValidarTransicionEstado(envioActual.value.estado, nuevo.value) {
      return Failure(Excepcion(BadMessageException(TRANSICION_NO_PERMITIDA, MensajeTransicion(envioActual.value.estado, data.estado))));
    }
    var actualizacion := Aplicar(cache, repo, numeroGuia, envioActual.value, nuevo.value, data);
    r := Success(actualizacion);
  }
}
