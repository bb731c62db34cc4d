/** RegistrarEnvioAppService: price the units with the route's rate, take
    the next tracking number of the day and save the shipment with its
    units and its first history row. */
module RegistrarEnvio {
  import opened Wrappers
  import opened Text
  import opened EnvioEntity
  import opened EnvioRepository
  import opened Exceptions
  import opened RedisCache
  import opened PostgresRepository
  import opened Coherencia
  import opened ClavesCache
  import opened CotizarEnvio

  const SIN_TARIFA_REGISTRAR: string := "No se encontró una tarifa para la ruta especificada"
  const MENSAJE_REGISTRO: string := "Envío registrado exitosamente"
  /** What the driver raises when save violates the key of the shipment
      table (a tracking number or id already stored). */
  const ERROR_LLAVE_DUPLICADA: string := "duplicate key value violates unique constraint"

  /** The validated request body. */
  datatype EntradaRegistro = EntradaRegistro(
    tipoProducto: TipoProducto,
    origen: string,
    destino: string,
    valorDeclarado: real,
    metodoPago: MetodoPago,
    unidades: seq<UnidadEnvio>,
    remitente: Remitente,
    destinatario: Destinatario,
    valorCotizacion: Option<real>)

  /** A unit as the response shows it. */
  datatype UnidadRespuesta = UnidadRespuesta(pesoReal: real, dimensiones: string, pesoVolumetrico: int, pesoFacturable: real)

  /** The response of a successful registration. */
  datatype Registro = Registro(
    mensaje: string,
    id: string,
    numeroGuia: string,
    estado: Estado,
    ruta: string,
    tipoProducto: TipoProducto,
    valorTotal: real,
    moneda: string,
    unidades: seq<UnidadRespuesta>)

  /** `${alto}x${ancho}x${largo} cm`. */
  function Dimensiones(u: UnidadCalculada): string {
    IntString(u.alto) + "x" + IntString(u.ancho) + "x" + IntString(u.largo) + " cm"
  }

  /** For the positive dimensions the request allows, the text gives back
      the three dimensions. */
  lemma DimensionesInyectiva(u: UnidadCalculada, v: UnidadCalculada)
    requires u.alto >= 0 && u.ancho >= 0 && u.largo >= 0
    requires v.alto >= 0 && v.ancho >= 0 && v.largo >= 0
    requires Dimensiones(u) == Dimensiones(v)
    ensures u.alto == v.alto && u.ancho == v.ancho && u.largo == v.largo
  {
    var a1, b1, c1 := DecimalString(u.alto), DecimalString(u.ancho), DecimalString(u.largo);
    var a2, b2, c2 := DecimalString(v.alto), DecimalString(v.ancho), DecimalString(v.largo);
    Reasociar(a1, b1, c1);
    Reasociar(a2, b2, c2);
    SinLetraX(a1); SinLetraX(a2); SinLetraX(b1); SinLetraX(b2);
    SepararEn('x', a1, b1 + ['x'] + (c1 + " cm"), a2, b2 + ['x'] + (c2 + " cm"));
    SepararEn('x', b1, c1 + " cm", b2, c2 + " cm");
    assert c1 == (c1 + " cm")[..|c1 + " cm"| - 3];
    assert c2 == (c2 + " cm")[..|c2 + " cm"| - 3];
    ParseDecimalString(u.alto); ParseDecimalString(v.alto);
    ParseDecimalString(u.ancho); ParseDecimalString(v.ancho);
    ParseDecimalString(u.largo); ParseDecimalString(v.largo);
  }

  lemma Reasociar(a: string, b: string, c: string)
    ensures a + "x" + b + "x" + c + " cm" == a + ['x'] + (b + ['x'] + (c + " cm"))
  {
  }

  lemma SinLetraX(s: string)
    requires AllDigits(s)
    ensures forall i :: 0 <= i < |s| ==> s[i] != 'x'
  {
  }

  /** The units of the response, in the order they were priced. */
  function RespuestaUnidades(cs: seq<UnidadCalculada>): (r: seq<UnidadRespuesta>)
    ensures |r| == |cs|
    ensures forall i :: 0 <= i < |cs| ==>
      r[i] == UnidadRespuesta(cs[i].pesoReal, Dimensiones(cs[i]), cs[i].pesoVolumetrico, cs[i].pesoFacturable)
  {
    seq(|cs|, i requires 0 <= i < |cs| => UnidadRespuesta(cs[i].pesoReal, Dimensiones(cs[i]), cs[i].pesoVolumetrico, cs[i].pesoFacturable))
  }

  /** The shipment `run` builds for a request, an id, a tracking number and
      the route's rate: route upper-cased, units priced with the rate, the
      quote the client sent or else the computed one, and the entity's
      defaults for state and currency. */
  function EnvioRegistrado(data: EntradaRegistro, id: string, guia: string, tb: TarifaBase): (e: Envio)
    requires tb.factorVolumetrico > 0.0
    ensures e.estado == EnEspera && e.moneda == MONEDA_POR_DEFECTO
    ensures e.id == id && e.numeroGuia == guia && e.tipoProducto == data.tipoProducto
    ensures e.origen == Upper(data.origen) && e.destino == Upper(data.destino)
    ensures e.unidades == Calculadas(data.unidades, tb)
    ensures data.valorCotizacion.Some? ==> e.valorTotalCotizacion == data.valorCotizacion.value
    ensures data.valorCotizacion.None? ==> e.valorTotalCotizacion == TotalCotizacion(e.unidades, tb.precioBase)
    ensures e.remitente == data.remitente && e.destinatario == data.destinatario
  {
    var cs := Calculadas(data.unidades, tb);
    var valor := data.valorCotizacion.GetOr(TotalCotizacion(cs, tb.precioBase));
    var p := EnvioProps(id, guia, data.tipoProducto, Upper(data.origen), Upper(data.destino), data.valorDeclarado,
                        data.metodoPago, cs, valor, data.remitente, data.destinatario, None, None);
    NuevoEnvio(p)
  }

  /** The response for the saved shipment. */
  function RegistroDe(e: Envio): Registro {
    Registro(MENSAJE_REGISTRO, e.id, e.numeroGuia, e.estado, Ruta(e.origen, e.destino), e.tipoProducto,
             e.valorTotalCotizacion, e.moneda, RespuestaUnidades(e.unidades))
  }

  /** Without a client quote, registering charges what quoting the same
      route and units with the same rate answers. */
  lemma RegistroCobraLaCotizacion(data: EntradaRegistro, id: string, guia: string, tb: TarifaBase)
    requires tb.factorVolumetrico > 0.0 && data.valorCotizacion.None?
    ensures var e := EnvioRegistrado(data, id, guia, tb);
      var c := CotizacionDe(data.tipoProducto, Upper(data.origen), Upper(data.destino), data.unidades, tb);
      e.unidades == c.unidades && e.valorTotalCotizacion == c.valorTotalCotizacion
      && RegistroDe(e).ruta == c.ruta && RegistroDe(e).moneda == c.moneda
  {
  }

  /** A registered shipment reads back as it was built: waiting, in COP,
      with its units in order and a single creation row in its history. */
  lemma RegistradoSeLee(envios: map<string, FilaEnvio>, unidades: seq<FilaUnidad>, historial: seq<HistorialEstado>, siguiente: nat,
                        data: EntradaRegistro, id: string, guia: string, tb: TarifaBase)
    requires TablasValidas(envios, unidades, historial, siguiente)
    requires tb.factorVolumetrico > 0.0
    requires guia !in envios && id !in IdsDe(envios)
    ensures var e := EnvioRegistrado(data, id, guia, tb);
      var leido := EnvioEn(envios[guia := FilaDe(e)], unidades + FilasUnidad(id, e.unidades), guia);
      leido.Some? && leido.value.estado == EnEspera && leido.value.moneda == MONEDA_POR_DEFECTO
      && leido.value.unidades == Calculadas(data.unidades, tb)
      && HistorialDe(historial + [FilaRegistro(siguiente, e)], id) == [FilaRegistro(siguiente, e)]
      && FilaRegistro(siguiente, e).estadoAnterior.None? && FilaRegistro(siguiente, e).estadoNuevo == EnEspera
  {
    var e := EnvioRegistrado(data, id, guia, tb);
    GuardarValido(envios, unidades, historial, siguiente, e);
    GuardarLee(envios, unidades, historial, siguiente, e);
  }

  /** The part of `run` after the rate is found: price the units, take the
      next tracking number and save the shipment with its units and its
      creation history row. */
  method RegistrarConTarifa(repo: PostgresEnvioRepository, data: EntradaRegistro, id: string, tb: TarifaBase,
                            dia: nat, mes0: nat, anio: nat, ghost almacen: map<string, Entrada>)
    returns (r: Result<Registro, Falla>)
    requires repo.Valid() && tb.factorVolumetrico > 0.0
    modifies repo
    ensures repo.Valid()
    ensures var k := FechaClave(dia, mes0, anio);
      var c := Consecutivo(old(repo.secuencias), k);
      var guia := FormatoGuia(k, c);
      var e := EnvioRegistrado(data, id, guia, tb);
      var nuevo := guia !in old(repo.envios) && id !in IdsDe(old(repo.envios));
      repo.secuencias == old(repo.secuencias)[k := c]
      && (r.Success? <==> nuevo)
      && (nuevo ==> r == Success(RegistroDe(e))
                    && repo.envios == old(repo.envios)[guia := FilaDe(e)]
                    && repo.unidades == old(repo.unidades) + FilasUnidad(id, e.unidades)
                    && repo.historial == old(repo.historial) + [FilaRegistro(old(repo.siguienteIdHistorial), e)])
      && (!nuevo ==> r == Failure(ErrorConsulta(ERROR_LLAVE_DUPLICADA))
                     && repo.envios == old(repo.envios) && repo.unidades == old(repo.unidades)
                     && repo.historial == old(repo.historial))
    ensures old(EnviosCoherentes(almacen, repo.envios, repo.unidades, repo.historial)) ==>
              EnviosCoherentes(almacen, repo.envios, repo.unidades, repo.historial)
  {
    var procesadas, total := ProcesarUnidades(data.unidades, tb);
    var valorFinal := data.valorCotizacion.GetOr(total);
    var guia := repo.GetNextGuiaNumber(dia, mes0, anio);
    var e := NuevoEnvio(EnvioProps(id, guia, data.tipoProducto, Upper(data.origen), Upper(data.destino), data.valorDeclarado,
                                   data.metodoPago, procesadas, valorFinal, data.remitente, data.destinatario, None, None));
    assert e == EnvioRegistrado(data, id, guia, tb);
    if guia !in repo.envios && id !in IdsDe(repo.envios) && EnviosCoherentes(almacen, repo.envios, repo.unidades, repo.historial) {
      GuardarCoherente(almacen, repo.envios, repo.unidades, repo.historial, repo.siguienteIdHistorial, e);
    }
    var ok := repo.Save(e);
    if !ok {
      return Failure(ErrorConsulta(ERROR_LLAVE_DUPLICADA));
    }
    r := Success(Registro(MENSAJE_REGISTRO, e.id, e.numeroGuia, e.estado, Ruta(e.origen, e.destino), e.tipoProducto,
                          e.valorTotalCotizacion, e.moneda, RespuestaUnidades(procesadas)));
  }

  /** run. `id` stands for the generated `ENV-<timestamp>-<random>` and
      `dia`, `mes0`, `anio` for the day the tracking number is taken on;
      `almacen` is the cache's keyspace, which registration leaves alone. */
  method Run(repo: PostgresEnvioRepository, data: EntradaRegistro, id: string, dia: nat, mes0: nat, anio: nat,
             ghost almacen: map<string, Entrada>)
    returns (r: Result<Registro, Falla>)
    requires repo.Valid() && FactoresPositivos(repo.tarifas)
    modifies repo
    ensures repo.Valid()
    ensures var consulta := BuscarTarifa(repo.tarifas, Upper(data.origen), Upper(data.destino), TipoProductoLiteral(data.tipoProducto));
      match consulta
      case Failure(m) =>
        r == Failure(ErrorConsulta(m)) && unchanged(repo)
      case Success(None) =>
        r == Failure(Excepcion(BadMessageException(RUTA_NO_ENCONTRADA, SIN_TARIFA_REGISTRAR))) && unchanged(repo)
      case Success(Some(tb)) =>
        var k := FechaClave(dia, mes0, anio);
        var c := Consecutivo(old(repo.secuencias), k);
        var guia := FormatoGuia(k, c);
        var e := EnvioRegistrado(data, id, guia, tb);
        var nuevo := guia !in old(repo.envios) && id !in IdsDe(old(repo.envios));
        repo.secuencias == old(repo.secuencias)[k := c]
        && (r.Success? <==> nuevo)
        && (nuevo ==> r == Success(RegistroDe(e))
                      && repo.envios == old(repo.envios)[guia := FilaDe(e)]
                      && repo.unidades == old(repo.unidades) + FilasUnidad(id, e.unidades)
                      && repo.historial == old(repo.historial) + [FilaRegistro(old(repo.siguienteIdHistorial), e)])
        && (!nuevo ==> r == Failure(ErrorConsulta(ERROR_LLAVE_DUPLICADA))
                       && repo.envios == old(repo.envios) && repo.unidades == old(repo.unidades)
                       && repo.historial == old(repo.historial))
    ensures old(EnviosCoherentes(almacen, repo.envios, repo.unidades, repo.historial)) ==>
              EnviosCoherentes(almacen, repo.envios, repo.unidades, repo.historial)
  {
    var origen := Upper(data.origen);
    var destino := Upper(data.destino);
    var consulta := repo.GetTarifa(origen, destino, TipoProductoLiteral(data.tipoProducto));
    if consulta.Failure? {
      return Failure(ErrorConsulta(consulta.error));
    }
    if consulta.value.None? {
      return Failure(Excepcion(BadMessageException(RUTA_NO_ENCONTRADA, SIN_TARIFA_REGISTRAR)));
    }
    FactorDeConsulta(repo.tarifas, origen, destino, TipoProductoLiteral(data.tipoProducto));
    r := RegistrarConTarifa(repo, data, id, consulta.value.value, dia, mes0, anio, almacen);
  }
}
