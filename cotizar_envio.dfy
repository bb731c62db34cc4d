/** CotizarEnvioAppService: upper-case the route, find the rate (cache
    first, then the database), price every unit and add up the quote. */
module CotizarEnvio {
  import opened Wrappers
  import opened Text
  import opened EnvioEntity
  import opened EnvioRepository
  import opened Exceptions
  import opened RedisCache
  import opened PostgresRepository
  import opened ClavesCache
  import opened Coherencia

  const CACHE_TTL_TARIFA: int := 600
  const MONEDA_COTIZACION: string := "COP"
  const RUTA_NO_ENCONTRADA: string := "Ruta no encontrada"
  const SIN_TARIFA_COTIZAR: string := "No se encontró una tarifa para la ruta y tipo de producto especificados"

  /** The quote the service answers with. */
  datatype Cotizacion = Cotizacion(
    tipoProducto: TipoProducto,
    ruta: string,
    unidades: seq<UnidadCalculada>,
    valorTotalCotizacion: real,
    moneda: string)

  /** `${origen} - ${destino}`. */
  function Ruta(origen: string, destino: string): string {
    origen + " - " + destino
  }

  // ---------------------------------------------------------------------
  // Pricing the units
  // ---------------------------------------------------------------------

  /** Every unit priced with the rate's volumetric factor, in input order. */
  function Calculadas(us: seq<UnidadEnvio>, tb: TarifaBase): (r: seq<UnidadCalculada>)
    requires tb.factorVolumetrico > 0.0
    ensures |r| == |us|
    ensures forall i :: 0 <= i < |us| ==> r[i] == CalcularUnidad(us[i], Some(tb.factorVolumetrico))
  {
    seq(|us|, i requires 0 <= i < |us| => CalcularUnidad(us[i], Some(tb.factorVolumetrico)))
  }

  /** Σ pesoFacturable · precioBase, added unit by unit. */
  function TotalCotizacion(cs: seq<UnidadCalculada>, precioBase: real): real {
    if cs == [] then 0.0 else TotalCotizacion(cs[..|cs| - 1], precioBase) + cs[|cs| - 1].pesoFacturable * precioBase
  }

  /** Σ pesoFacturable. */
  function PesoFacturableTotal(cs: seq<UnidadCalculada>): real {
    if cs == [] then 0.0 else PesoFacturableTotal(cs[..|cs| - 1]) + cs[|cs| - 1].pesoFacturable
  }

  /** Σ pesoReal of the input units. */
  function PesoRealTotal(us: seq<UnidadEnvio>): real {
    if us == [] then 0.0 else PesoRealTotal(us[..|us| - 1]) + us[|us| - 1].pesoReal
  }

  /** The quote is the base price times the total billable weight. */
  lemma {:induction false} TotalEsPrecioPorPeso(cs: seq<UnidadCalculada>, precioBase: real)
    ensures TotalCotizacion(cs, precioBase) == PesoFacturableTotal(cs) * precioBase
  {
    if cs != [] {
      var init, u := cs[..|cs| - 1], cs[|cs| - 1];
      TotalEsPrecioPorPeso(init, precioBase);
      assert PesoFacturableTotal(cs) * precioBase
          == PesoFacturableTotal(init) * precioBase + u.pesoFacturable * precioBase;
    }
  }

  /** Quoting two lists of units one after the other adds their quotes. */
  lemma {:induction false} TotalConcat(a: seq<UnidadCalculada>, b: seq<UnidadCalculada>, precioBase: real)
    ensures TotalCotizacion(a + b, precioBase) == TotalCotizacion(a, precioBase) + TotalCotizacion(b, precioBase)
    decreases |b|
  {
    if b == [] {
      assert a + b == a;
    } else {
      assert (a + b)[..|a + b| - 1] == a + b[..|b| - 1];
      assert (a + b)[|a + b| - 1] == b[|b| - 1];
      TotalConcat(a, b[..|b| - 1], precioBase);
    }
  }

  /** With a non-negative price the quote never falls below the price of
      the real weight: billable weight is at least real weight. */
  lemma CotizacionCubrePesoReal(us: seq<UnidadEnvio>, tb: TarifaBase)
    requires tb.factorVolumetrico > 0.0 && tb.precioBase >= 0.0
    ensures TotalCotizacion(Calculadas(us, tb), tb.precioBase) >= PesoRealTotal(us) * tb.precioBase
  {
    TotalCubrePesoReal(Calculadas(us, tb), us, tb.precioBase);
  }

  /** Units each billed at least their real weight cost at least the price
      of the total real weight. */
  lemma {:induction false} TotalCubrePesoReal(cs: seq<UnidadCalculada>, us: seq<UnidadEnvio>, p: real)
    requires |cs| == |us| && p >= 0.0
    requires forall i :: 0 <= i < |cs| ==> cs[i].pesoFacturable >= us[i].pesoReal
    ensures TotalCotizacion(cs, p) >= PesoRealTotal(us) * p
    decreases |us|
  {
    if us != [] {
      var n := |us| - 1;
      TotalCubrePesoReal(cs[..n], us[..n], p);
      MultiplicarNoNegativo(us[n].pesoReal, cs[n].pesoFacturable, p);
      SumarPorPrecio(PesoRealTotal(us[..n]), us[n].pesoReal, p);
    }
  }

  lemma MultiplicarNoNegativo(a: real, b: real, p: real)
    requires a <= b && p >= 0.0
    ensures a * p <= b * p
  {
  }

  lemma SumarPorPrecio(a: real, b: real, p: real)
    ensures (a + b) * p == a * p + b * p
  {
  }

  /** The `map` over the units with its running total. */
  method ProcesarUnidades(us: seq<UnidadEnvio>, tb: TarifaBase) returns (calculadas: seq<UnidadCalculada>, total: real)
    requires tb.factorVolumetrico > 0.0
    ensures calculadas == Calculadas(us, tb)
    ensures total == TotalCotizacion(calculadas, tb.precioBase)
  {
    calculadas := [];
    total := 0.0;
    var i := 0;
    while i < |us|
      invariant 0 <= i <= |us|
      invariant calculadas == Calculadas(us[..i], tb)
      invariant total == TotalCotizacion(calculadas, tb.precioBase)
    {
      var u := CalcularUnidad(us[i], Some(tb.factorVolumetrico));
      total := total + u.pesoFacturable * tb.precioBase;
      TotalAlAgregar(calculadas, u, tb.precioBase);
      CalculadasAlAgregar(us, tb, i);
      calculadas := calculadas + [u];
      i := i + 1;
    }
    assert us[..i] == us;
  }

  lemma TotalAlAgregar(cs: seq<UnidadCalculada>, u: UnidadCalculada, precioBase: real)
    ensures TotalCotizacion(cs + [u], precioBase) == TotalCotizacion(cs, precioBase) + u.pesoFacturable * precioBase
  {
    assert (cs + [u])[..|cs|] == cs;
  }

  lemma CalculadasAlAgregar(us: seq<UnidadEnvio>, tb: TarifaBase, i: nat)
    requires tb.factorVolumetrico > 0.0 && i < |us|
    ensures Calculadas(us[..i + 1], tb) == Calculadas(us[..i], tb) + [CalcularUnidad(us[i], Some(tb.factorVolumetrico))]
  {
    assert us[..i + 1][..i] == us[..i];
  }

  /** The quote for a route and a rate. */
  function CotizacionDe(tipo: TipoProducto, origen: string, destino: string, us: seq<UnidadEnvio>, tb: TarifaBase): (c: Cotizacion)
    requires tb.factorVolumetrico > 0.0
    ensures c.tipoProducto == tipo && c.ruta == Ruta(origen, destino) && c.moneda == MONEDA_COTIZACION
    ensures c.unidades == Calculadas(us, tb)
    ensures c.valorTotalCotizacion == PesoFacturableTotal(c.unidades) * tb.precioBase
  {
    var cs := Calculadas(us, tb);
    TotalEsPrecioPorPeso(cs, tb.precioBase);
    Cotizacion(tipo, Ruta(origen, destino), cs, TotalCotizacion(cs, tb.precioBase), MONEDA_COTIZACION)
  }

  // ---------------------------------------------------------------------
  // The service
  // ---------------------------------------------------------------------

  /** What a `get` of a rate key yields: the cached rate when connected and
      the key holds one, nothing otherwise. */
  function TarifaLeida(store: map<string, Entrada>, conectado: bool, k: string): Option<TarifaBase> {
    if conectado && k in store && store[k].value.TarifaValue? then Some(store[k].value.tarifa) else None
  }

  /** The rate `run` prices with, given what the cache yielded: the cached
      rate on a hit; on a miss the rate the database has, 'Ruta no
      encontrada' when it has none, or the driver error. */
  function TarifaElegida(leida: Option<TarifaBase>, tarifas: seq<Tarifa>, origen: string, destino: string, tipo: string): (r: Result<TarifaBase, Falla>)
    requires FactoresPositivos(tarifas)
    requires leida.Some? ==> leida.value.factorVolumetrico > 0.0
    ensures r.Success? ==> r.value.factorVolumetrico > 0.0
    ensures leida.Some? ==> r == Success(leida.value)
    ensures leida.None? ==>
              (r.Success? <==> BuscarTarifa(tarifas, origen, destino, tipo).Success? && BuscarTarifa(tarifas, origen, destino, tipo).value.Some?)
  {
    if leida.Some? then Success(leida.value)
    else
      match BuscarTarifa(tarifas, origen, destino, tipo)
      case Failure(m) => Failure(ErrorConsulta(m))
      case Success(None) => Failure(Excepcion(BadMessageException(RUTA_NO_ENCONTRADA, SIN_TARIFA_COTIZAR)))
      case Success(Some(tb)) =>
        FactorDeConsulta(tarifas, origen, destino, tipo);
        Success(tb)
  }

  /** The outcome of `run` given what the cache yielded: a hit prices with
      the cached rate; a miss prices with the rate the database has, fails
      with 'Ruta no encontrada' when it has none, and passes a driver error
      through. */
  function ResultadoCotizar(leida: Option<TarifaBase>, tarifas: seq<Tarifa>, tipo: TipoProducto, origen: string, destino: string, us: seq<UnidadEnvio>): (r: Result<Cotizacion, Falla>)
    requires FactoresPositivos(tarifas)
    requires leida.Some? ==> leida.value.factorVolumetrico > 0.0
    ensures leida.Some? ==> r.Success?
    ensures r.Success? ==> r.value.ruta == Ruta(origen, destino) && |r.value.unidades| == |us|
    ensures leida.None? && BuscarTarifa(tarifas, origen, destino, TipoProductoLiteral(tipo)) == Success(None) ==>
              r == Failure(Excepcion(BadMessageException(RUTA_NO_ENCONTRADA, SIN_TARIFA_COTIZAR)))
              && r.error.e.cause == Some(RUTA_NO_ENCONTRADA)
  {
    match TarifaElegida(leida, tarifas, origen, destino, TipoProductoLiteral(tipo))
    case Failure(f) => Failure(f)
    case Success(tb) => Success(CotizacionDe(tipo, origen, destino, us, tb))
  }

  /** A coherent cache changes nothing: for a route without ':' the quote is
      the one the database alone gives. */
  lemma CacheTransparente(store: map<string, Entrada>, conectado: bool, tarifas: seq<Tarifa>, tipo: TipoProducto, origen: string, destino: string, us: seq<UnidadEnvio>)
    requires FactoresPositivos(tarifas) && FactoresEnCachePositivos(store) && TarifasCoherentes(store, tarifas)
    requires SinDosPuntos(origen) && SinDosPuntos(destino)
    ensures var leida := TarifaLeida(store, conectado, TarifaCacheKey(origen, destino, TipoProductoLiteral(tipo)));
      (leida.Some? ==> leida.value.factorVolumetrico > 0.0)
      && ResultadoCotizar(leida, tarifas, tipo, origen, destino, us) == ResultadoCotizar(None, tarifas, tipo, origen, destino, us)
  {
  }

  /** The cache-aside read at the start of `run`: the cached rate, or the
      database's rate written back to the cache for ten minutes. */
  method ObtenerTarifa(cache: RedisCacheService, repo: PostgresEnvioRepository, o: string, d: string, tipo: TipoProducto)
    returns (t: Result<TarifaBase, Falla>)
    requires FactoresPositivos(repo.tarifas) && FactoresEnCachePositivos(cache.store)
    modifies cache`store
    ensures FactoresEnCachePositivos(cache.store)
    ensures var k := TarifaCacheKey(o, d, TipoProductoLiteral(tipo));
      var leida := TarifaLeida(old(cache.store), cache.IsConnected(), k);
      (leida.Some? ==> leida.value.factorVolumetrico > 0.0)
      && t == TarifaElegida(leida, repo.tarifas, o, d, TipoProductoLiteral(tipo))
      && cache.store == (if leida.None? && t.Success? && cache.IsConnected()
                         then old(cache.store)[k := Entrada(TarifaValue(t.value), CACHE_TTL_TARIFA)]
                         else old(cache.store))
    ensures SinDosPuntos(o) && SinDosPuntos(d) && old(Coherente(cache.store, repo)) ==> Coherente(cache.store, repo)
  {
    var lit := TipoProductoLiteral(tipo);
    var k := TarifaCacheKey(o, d, lit);
    var cached := cache.Get(k, false);
    if cached.Some? && cached.value.TarifaValue? {
      return Success(cached.value.tarifa);
    }
    var consulta := repo.GetTarifa(o, d, lit);
    if consulta.Failure? {
      return Failure(ErrorConsulta(consulta.error));
    }
    if consulta.value.None? {
      return Failure(Excepcion(BadMessageException(RUTA_NO_ENCONTRADA, SIN_TARIFA_COTIZAR)));
    }
    var tb := consulta.value.value;
    FactorDeConsulta(repo.tarifas, o, d, lit);
    if SinDosPuntos(o) && SinDosPuntos(d) && Coherente(cache.store, repo) {
      EscribirTarifa(cache.store, repo.envios, repo.unidades, repo.historial, repo.tarifas, o, d, tipo, tb, CACHE_TTL_TARIFA);
    }
    cache.Set(k, TarifaValue(tb), Some(CACHE_TTL_TARIFA), false);
    t := Success(tb);
  }

  /** run. */
  method Run(cache: RedisCacheService, repo: PostgresEnvioRepository, tipo: TipoProducto, origen: string, destino: string, unidades: seq<UnidadEnvio>)
    returns (r: Result<Cotizacion, Falla>)
    requires FactoresPositivos(repo.tarifas) && FactoresEnCachePositivos(cache.store)
    modifies cache`store
    ensures FactoresEnCachePositivos(cache.store)
    ensures var o, d := Upper(origen), Upper(destino);
      var k := TarifaCacheKey(o, d, TipoProductoLiteral(tipo));
      var leida := TarifaLeida(old(cache.store), cache.IsConnected(), k);
      var elegida := TarifaElegida(leida, repo.tarifas, o, d, TipoProductoLiteral(tipo));
      (leida.Some? ==> leida.value.factorVolumetrico > 0.0)
      && r == ResultadoCotizar(leida, repo.tarifas, tipo, o, d, unidades)
      && cache.store == (if leida.None? && elegida.Success? && cache.IsConnected()
                         then old(cache.store)[k := Entrada(TarifaValue(elegida.value), CACHE_TTL_TARIFA)]
                         else old(cache.store))
    ensures SinDosPuntos(Upper(origen)) && SinDosPuntos(Upper(destino)) && old(Coherente(cache.store, repo)) ==>
              Coherente(cache.store, repo)
  {
    var o := Upper(origen);
    var d := Upper(destino);
    var t := ObtenerTarifa(cache, repo, o, d, tipo);
    if t.Failure? {
      return Failure(t.error);
    }
    var calculadas, total := ProcesarUnidades(unidades, t.value);
    r := Success(Cotizacion(tipo, Ruta(o, d), calculadas, total, MONEDA_COTIZACION));
  }

  /** The two-unit example: 10 kg and 5 kg billable at 1000 per kg. */
  lemma EjemploTotal(a: UnidadCalculada, b: UnidadCalculada)
    requires a.pesoFacturable == 10.0 && b.pesoFacturable == 5.0
    ensures TotalCotizacion([a, b], 1000.0) == 15000.0
  {
    assert [a, b][..1] == [a];
    assert [a][..0] == [];
    assert TotalCotizacion([a], 1000.0) == 10000.0;
  }
}
