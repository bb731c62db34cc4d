/** ConsultarEnvioAppService: answer a tracking-number lookup from the
    cache when it holds the shipment, otherwise from the database, caching
    what the database returned for 60 seconds. */
module ConsultarEnvio {
  import opened Wrappers
  import opened EnvioEntity
  import opened EnvioRepository
  import opened Exceptions
  import opened RedisCache
  import opened PostgresRepository
  import opened ClavesCache
  import opened Coherencia
  import opened RegistrarEnvio

  const CACHE_TTL_ENVIO: int := 60
  const GUIA_NO_ENCONTRADA: string := "Guía no encontrada"

  /** The response: the shipment, its units as the response shows them,
      its history and where the answer came from. */
  datatype Consulta = Consulta(
    numeroGuia: string,
    estado: Estado,
    tipoProducto: TipoProducto,
    origen: string,
    destino: string,
    remitente: Remitente,
    destinatario: Destinatario,
    valorTotal: real,
    moneda: string,
    metodoPago: MetodoPago,
    unidades: seq<UnidadRespuesta>,
    historialEstados: seq<HistorialEstado>,
    fromCache: bool)

  function MensajeGuiaNoEncontrada(numeroGuia: string): string {
    "No se encontró ningún envío con la guía: " + numeroGuia
  }

  function ConsultaDe(e: Envio, h: seq<HistorialEstado>, fromCache: bool): Consulta {
    Consulta(e.numeroGuia, e.estado, e.tipoProducto, e.origen, e.destino, e.remitente, e.destinatario,
             e.valorTotalCotizacion, e.moneda, e.metodoPago, RespuestaUnidades(e.unidades), h, fromCache)
  }

  /** What a `get` of a shipment key yields: the cached `{ envio, historial }`
      when connected and the key holds one. */
  function EnvioLeido(store: map<string, Entrada>, conectado: bool, k: string): (r: Option<CacheValue>)
    ensures r.Some? ==> r.value.EnvioValue? && k in store && r.value == store[k].value
  {
    if conectado && k in store && store[k].value.EnvioValue? then Some(store[k].value) else None
  }

  /** The outcome of `run` given what the cache yielded: a hit rebuilds the
      cached entity and answers with the cached history; a miss reads the
      shipment and its history, or fails with 'Guía no encontrada'. */
  function ResultadoConsulta(leido: Option<CacheValue>, envios: map<string, FilaEnvio>, unidades: seq<FilaUnidad>,
                             historial: seq<HistorialEstado>, numeroGuia: string): (r: Result<Consulta, Falla>)
    requires leido.Some? ==> leido.value.EnvioValue?
    ensures r.Success? ==> r.value.fromCache == leido.Some?
    ensures r.Failure? <==> leido.None? && numeroGuia !in envios
    ensures r.Failure? ==> r.error == Excepcion(BadMessageException(GUIA_NO_ENCONTRADA, MensajeGuiaNoEncontrada(numeroGuia)))
    ensures leido.None? && r.Success? ==>
              r.value.historialEstados == HistorialDe(historial, envios[numeroGuia].id)
              && r.value.estado == envios[numeroGuia].estado && r.value.moneda == MONEDA_POR_DEFECTO
              && r.value.valorTotal == envios[numeroGuia].valorTotalCotizacion
              && r.value.unidades == RespuestaUnidades(UnidadesDeEnvio(unidades, envios[numeroGuia].id))
    ensures leido.Some? ==>
              r.Success? && r.value.historialEstados == leido.value.historial
              && r.value.valorTotal == leido.value.envio.valorTotalCotizacion
              && r.value.unidades == RespuestaUnidades(leido.value.envio.unidades)
  {
    if leido.Some? then
      Success(ConsultaDe(NuevoEnvio(AsProps(leido.value.envio)), leido.value.historial, true))
    else
      match EnvioEn(envios, unidades, numeroGuia)
      case None => Failure(Excepcion(BadMessageException(GUIA_NO_ENCONTRADA, MensajeGuiaNoEncontrada(numeroGuia))))
      case Some(e) => IdDeEnvio(envios, unidades, numeroGuia); Success(ConsultaDe(e, HistorialDe(historial, e.id), false))
  }

  /** A coherent cache changes nothing but the `fromCache` flag: a hit
      answers exactly what the database would. */
  lemma CacheTransparente(store: map<string, Entrada>, conectado: bool, envios: map<string, FilaEnvio>, unidades: seq<FilaUnidad>,
                          historial: seq<HistorialEstado>, numeroGuia: string)
    requires EnviosCoherentes(store, envios, unidades, historial)
    ensures var leido := EnvioLeido(store, conectado, EnvioCacheKey(numeroGuia));
      var conCache := ResultadoConsulta(leido, envios, unidades, historial, numeroGuia);
      var sinCache := ResultadoConsulta(None, envios, unidades, historial, numeroGuia);
      conCache.Success? == sinCache.Success?
      && (conCache.Success? ==> conCache.value.(fromCache := false) == sinCache.value)
  {
    var leido := EnvioLeido(store, conectado, EnvioCacheKey(numeroGuia));
    if leido.Some? {
      var e := leido.value.envio;
      ReconstruirEsIdentidad(e);
      assert EnvioEn(envios, unidades, numeroGuia) == Some(e);
    }
  }

  /** run. The cache commands do not fail here (a failing one behaves like
      a disconnected cache). */
  method Run(cache: RedisCacheService, repo: PostgresEnvioRepository, numeroGuia: string) returns (r: Result<Consulta, Falla>)
    modifies cache`store
    ensures var k := EnvioCacheKey(numeroGuia);
      var leido := EnvioLeido(old(cache.store), cache.IsConnected(), k);
      r == ResultadoConsulta(leido, repo.envios, repo.unidades, repo.historial, numeroGuia)
      && cache.store == (if leido.None? && numeroGuia in repo.envios && cache.IsConnected()
                         then old(cache.store)[k := Entrada(EnvioValue(repo.FindByGuia(numeroGuia).value,
                                                                       repo.GetHistorial(repo.envios[numeroGuia].id)), CACHE_TTL_ENVIO)]
                         else old(cache.store))
    ensures old(Coherente(cache.store, repo)) ==> Coherente(cache.store, repo)
  {
    var k := EnvioCacheKey(numeroGuia);
    var cached := cache.Get(k, false);
    if cached.Some? && cached.value.EnvioValue? {
      var envio := NuevoEnvio(AsProps(cached.value.envio));
      return Success(ConsultaDe(envio, cached.value.historial, true));
    }
    var envio := repo.FindByGuia(numeroGuia);
    if envio.None? {
      return Failure(Excepcion(BadMessageException(GUIA_NO_ENCONTRADA, MensajeGuiaNoEncontrada(numeroGuia))));
    }
    IdDeEnvio(repo.envios, repo.unidades, numeroGuia);
    var historial := repo.GetHistorial(envio.value.id);
    if Coherente(cache.store, repo) {
      EscribirEnvio(cache.store, repo.envios, repo.unidades, repo.historial, repo.tarifas, numeroGuia, envio.value, CACHE_TTL_ENVIO);
    }
    cache.Set(k, EnvioValue(envio.value, historial), Some(CACHE_TTL_ENVIO), false);
    r := Success(ConsultaDe(envio.value, historial, false));
  }
}
