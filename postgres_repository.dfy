/** PostgresEnvioRepository over in-memory tables: `envios` keyed by
    numero_guia, `envio_unidades` and `envio_historial` in insertion order,
    `guia_secuencia` keyed by the date key, and the read-only `tarifas`. */
module PostgresRepository {
  import opened Wrappers
  import opened Text
  import opened EnvioEntity
  import opened EnvioRepository

  /** A row of `envios` (moneda and the timestamps are columns save does not write). */
  datatype FilaEnvio = FilaEnvio(
    id: string,
    numeroGuia: string,
    tipoProducto: TipoProducto,
    origen: string,
    destino: string,
    valorDeclarado: real,
    metodoPago: MetodoPago,
    valorTotalCotizacion: real,
    estado: Estado,
    remitente: Remitente,
    destinatario: Destinatario)

  /** A row of `envio_unidades`. */
  datatype FilaUnidad = FilaUnidad(envioId: string, unidad: UnidadCalculada)

  const OBSERVACION_REGISTRO: string := "Envío registrado en el sistema"

  /** What pg-promise's oneOrNone throws when the query returns several rows. */
  const ERROR_VARIAS_FILAS: string := "Multiple rows were not expected."

  /** `x || null` on an optional string: the empty string is stored as null. */
  function OrNull(s: Option<string>): (r: Option<string>)
    ensures r.None? <==> (s.None? || s == Some(""))
    ensures r.Some? ==> r == s
  {
    if s == Some("") then None else s
  }

  /** The `envios` row save writes for a shipment. */
  function FilaDe(e: Envio): FilaEnvio {
    FilaEnvio(e.id, e.numeroGuia, e.tipoProducto, e.origen, e.destino, e.valorDeclarado, e.metodoPago,
              e.valorTotalCotizacion, e.estado, e.remitente,
              e.destinatario.(infoAdicional := OrNull(e.destinatario.infoAdicional)))
  }

  /** The entity findByGuia rebuilds from a row and its units; the row has
      no currency, so the constructor's default applies. */
  function EnvioDeFila(f: FilaEnvio, us: seq<UnidadCalculada>): Envio {
    NuevoEnvio(EnvioProps(f.id, f.numeroGuia, f.tipoProducto, f.origen, f.destino, f.valorDeclarado,
                          f.metodoPago, us, f.valorTotalCotizacion, f.remitente, f.destinatario,
                          Some(f.estado), None))
  }

  /** What a saved shipment reads back as: currency 'COP' and an empty
      `infoAdicional` turned into null; everything else as saved. */
  function Almacenado(e: Envio): Envio {
    e.(moneda := MONEDA_POR_DEFECTO, destinatario := e.destinatario.(infoAdicional := OrNull(e.destinatario.infoAdicional)))
  }

  /** A shipment already in currency 'COP' and without an empty note reads
      back unchanged. */
  lemma AlmacenadoSinCambios(e: Envio)
    requires e.moneda == MONEDA_POR_DEFECTO && e.destinatario.infoAdicional != Some("")
    ensures Almacenado(e) == e
  {
  }

  /** The unit rows save writes for one shipment, in the order of its units. */
  function FilasUnidad(id: string, us: seq<UnidadCalculada>): (r: seq<FilaUnidad>)
    ensures |r| == |us|
    ensures forall i :: 0 <= i < |r| ==> r[i] == FilaUnidad(id, us[i])
  {
    if us == [] then [] else FilasUnidad(id, us[..|us| - 1]) + [FilaUnidad(id, us[|us| - 1])]
  }

  /** `SELECT ... FROM envio_unidades WHERE envio_id = $1`, in table order. */
  function UnidadesDeEnvio(filas: seq<FilaUnidad>, id: string): (r: seq<UnidadCalculada>)
    ensures |r| <= |filas|
  {
    if filas == [] then []
    else UnidadesDeEnvio(filas[..|filas| - 1], id) + (if filas[|filas| - 1].envioId == id then [filas[|filas| - 1].unidad] else [])
  }

  lemma {:induction false} UnidadesDeConcat(a: seq<FilaUnidad>, b: seq<FilaUnidad>, id: string)
    ensures UnidadesDeEnvio(a + b, id) == UnidadesDeEnvio(a, id) + UnidadesDeEnvio(b, id)
    decreases |b|
  {
    if b != [] {
      assert (a + b)[..|a + b| - 1] == a + b[..|b| - 1];
      assert (a + b)[|a + b| - 1] == b[|b| - 1];
      UnidadesDeConcat(a, b[..|b| - 1], id);
    } else {
      assert a + b == a;
    }
  }

  /** Reading the units of `id` back from the rows written for it gives
      the units saved, in order; a different id sees none of them. */
  lemma {:induction false} UnidadesDeFilas(id: string, us: seq<UnidadCalculada>, otro: string)
    requires otro != id
    ensures UnidadesDeEnvio(FilasUnidad(id, us), id) == us
    ensures UnidadesDeEnvio(FilasUnidad(id, us), otro) == []
    decreases |us|
  {
    if us != [] {
      var f := FilasUnidad(id, us);
      assert f[..|f| - 1] == FilasUnidad(id, us[..|us| - 1]);
      UnidadesDeFilas(id, us[..|us| - 1], otro);
    }
  }

  lemma {:induction false} UnidadesAjenas(filas: seq<FilaUnidad>, id: string)
    requires forall i :: 0 <= i < |filas| ==> filas[i].envioId != id
    ensures UnidadesDeEnvio(filas, id) == []
    decreases |filas|
  {
    if filas != [] {
      UnidadesAjenas(filas[..|filas| - 1], id);
    }
  }

  /** `SELECT ... FROM envio_historial WHERE envio_id = $1`, in insertion order. */
  function HistorialDe(h: seq<HistorialEstado>, id: string): (r: seq<HistorialEstado>)
    ensures |r| <= |h|
    ensures forall x :: x in r <==> x in h && x.envioId == id
  {
    if h == [] then []
    else HistorialDe(h[..|h| - 1], id) + (if h[|h| - 1].envioId == id then [h[|h| - 1]] else [])
  }

  lemma HistorialDeAgregar(h: seq<HistorialEstado>, x: HistorialEstado, id: string)
    ensures HistorialDe(h + [x], id) == HistorialDe(h, id) + (if x.envioId == id then [x] else [])
  {
    assert (h + [x])[..|h + [x]| - 1] == h;
  }

  /** A shipment with no history rows yet has an empty history. */
  lemma HistorialAjeno(h: seq<HistorialEstado>, id: string)
    requires forall i :: 0 <= i < |h| ==> h[i].envioId != id
    ensures HistorialDe(h, id) == []
  {
  }

  // ---------------------------------------------------------------------
  // Rates
  // ---------------------------------------------------------------------

  /** The WHERE clause of getTarifa. */
  predicate Coincide(t: Tarifa, origen: string, destino: string, tipoProducto: string) {
    t.origen == origen && t.destino == destino
    && (t.tipoProducto == tipoProducto || t.tipoProducto == "AMBOS") && t.activo
  }

  function Coincidentes(ts: seq<Tarifa>, origen: string, destino: string, tipoProducto: string): (r: seq<Tarifa>)
    ensures |r| <= |ts|
    ensures forall t :: t in r <==> t in ts && Coincide(t, origen, destino, tipoProducto)
  {
    if ts == [] then []
    else Coincidentes(ts[..|ts| - 1], origen, destino, tipoProducto)
         + (if Coincide(ts[|ts| - 1], origen, destino, tipoProducto) then [ts[|ts| - 1]] else [])
  }

  lemma {:induction false} CoincidentesConcat(a: seq<Tarifa>, b: seq<Tarifa>, o: string, d: string, tipo: string)
    ensures Coincidentes(a + b, o, d, tipo) == Coincidentes(a, o, d, tipo) + Coincidentes(b, o, d, tipo)
    decreases |b|
  {
    if b != [] {
      assert (a + b)[..|a + b| - 1] == a + b[..|b| - 1];
      assert (a + b)[|a + b| - 1] == b[|b| - 1];
      CoincidentesConcat(a, b[..|b| - 1], o, d, tipo);
    } else {
      assert a + b == a;
    }
  }

  /** Two matching rows at distinct positions give at least two results. */
  lemma DosFilasDosResultados(ts: seq<Tarifa>, o: string, d: string, tipo: string, i: nat, j: nat)
    requires i < j < |ts| && Coincide(ts[i], o, d, tipo) && Coincide(ts[j], o, d, tipo)
    ensures |Coincidentes(ts, o, d, tipo)| >= 2
  {
    var a, b := ts[..j], ts[j..];
    assert ts == a + b;
    CoincidentesConcat(a, b, o, d, tipo);
    assert ts[i] in a;
    assert ts[j] in b;
    var ca, cb := Coincidentes(a, o, d, tipo), Coincidentes(b, o, d, tipo);
    assert ts[i] in ca && ts[j] in cb;
  }

  /** At least two results come from two matching rows at distinct positions. */
  lemma {:induction false} DosResultadosDosFilas(ts: seq<Tarifa>, o: string, d: string, tipo: string) returns (i: nat, j: nat)
    requires |Coincidentes(ts, o, d, tipo)| >= 2
    ensures i < j < |ts| && Coincide(ts[i], o, d, tipo) && Coincide(ts[j], o, d, tipo)
    decreases |ts|
  {
    var init := ts[..|ts| - 1];
    var c := Coincidentes(init, o, d, tipo);
    if |c| >= 2 {
      i, j := DosResultadosDosFilas(init, o, d, tipo);
      assert ts[i] == init[i] && ts[j] == init[j];
    } else {
      assert c[0] in c;
      var k :| 0 <= k < |init| && init[k] == c[0];
      assert ts[k] == init[k];
      i, j := k, |ts| - 1;
    }
  }

  /** Two rows (at distinct positions) match exactly when the filtered
      result has two or more rows. */
  lemma VariasCoincidencias(ts: seq<Tarifa>, o: string, d: string, tipo: string)
    ensures |Coincidentes(ts, o, d, tipo)| >= 2 <==>
            exists i, j :: 0 <= i < j < |ts| && Coincide(ts[i], o, d, tipo) && Coincide(ts[j], o, d, tipo)
  {
    if |Coincidentes(ts, o, d, tipo)| >= 2 {
      var i, j := DosResultadosDosFilas(ts, o, d, tipo);
    }
    if exists i, j :: 0 <= i < j < |ts| && Coincide(ts[i], o, d, tipo) && Coincide(ts[j], o, d, tipo) {
      var i, j :| 0 <= i < j < |ts| && Coincide(ts[i], o, d, tipo) && Coincide(ts[j], o, d, tipo);
      DosFilasDosResultados(ts, o, d, tipo, i, j);
    }
  }

  /** getTarifa: no matching active row gives null, exactly one gives its
      price and factor, several make oneOrNone throw. */
  function BuscarTarifa(ts: seq<Tarifa>, origen: string, destino: string, tipoProducto: string): (r: Result<Option<TarifaBase>, string>)
    ensures r == Success(None) <==> forall t :: t in ts ==> !Coincide(t, origen, destino, tipoProducto)
    ensures r.Success? && r.value.Some? ==>
              forall t :: t in ts && Coincide(t, origen, destino, tipoProducto) ==>
                r.value.value == TarifaBase(t.precioBase, t.factorVolumetrico)
    ensures r.Failure? <==>
              exists i, j :: 0 <= i < j < |ts| && Coincide(ts[i], origen, destino, tipoProducto) && Coincide(ts[j], origen, destino, tipoProducto)
    ensures r.Failure? ==> r.error == ERROR_VARIAS_FILAS
  {
    var m := Coincidentes(ts, origen, destino, tipoProducto);
    VariasCoincidencias(ts, origen, destino, tipoProducto);
    if |m| == 0 then
      Success(None)
    else if |m| == 1 then
      assert m[0] in m;
      Success(Some(TarifaBase(m[0].precioBase, m[0].factorVolumetrico)))
    else
      Failure(ERROR_VARIAS_FILAS)
  }

  /** getAllTarifas: the active rows (in table order; see README). */
  function TarifasActivas(ts: seq<Tarifa>): (r: seq<Tarifa>)
    ensures |r| <= |ts|
    ensures forall t :: t in r <==> t in ts && t.activo
  {
    if ts == [] then []
    else TarifasActivas(ts[..|ts| - 1]) + (if ts[|ts| - 1].activo then [ts[|ts| - 1]] else [])
  }

  // ---------------------------------------------------------------------
  // Tracking numbers: DDMMYY followed by a five-digit daily counter
  // ---------------------------------------------------------------------

  function Pad2(n: nat): string {
    PadStart(DecimalString(n), 2, '0')
  }

  /** `${day}${month}${year}` for a date given as day of month, zero-based
      month and full year. */
  function FechaClave(dia: nat, mes0: nat, anio: nat): string {
    Pad2(dia) + Pad2(mes0 + 1) + SliceLast(DecimalString(anio), 2)
  }

  /** The tracking number: the date key and the counter padded to five digits. */
  function FormatoGuia(clave: string, consecutivo: nat): string {
    clave + PadStart(DecimalString(consecutivo), 5, '0')
  }

  /** The counter the upsert returns: 1 for a new key, the previous value plus one otherwise. */
  function Consecutivo(secuencias: map<string, nat>, clave: string): (c: nat)
    ensures c >= 1
    ensures clave in secuencias ==> c > secuencias[clave]
  {
    if clave in secuencias then secuencias[clave] + 1 else 1
  }

  lemma Pad2Formato(n: nat)
    requires n < 100
    ensures |Pad2(n)| == 2 && AllDigits(Pad2(n)) && ParseDecimal(Pad2(n)) == n
  {
    DecimalStringLength(n, 2);
    PaddedDecimalRoundTrip(n, 2);
  }

  /** For a real date (day 1..31, month 0..11, a year of two or more digits)
      the key is six digits that read back as day, month + 1 and the year
      modulo 100. */
  lemma FechaClaveFormato(dia: nat, mes0: nat, anio: nat)
    requires 1 <= dia <= 31 && mes0 <= 11 && anio >= 10
    ensures var k := FechaClave(dia, mes0, anio);
      |k| == 6 && AllDigits(k)
      && ParseDecimal(k[..2]) == dia && ParseDecimal(k[2..4]) == mes0 + 1 && ParseDecimal(k[4..]) == anio % 100
  {
    var a, b, c := Pad2(dia), Pad2(mes0 + 1), SliceLast(DecimalString(anio), 2);
    Pad2Formato(dia);
    Pad2Formato(mes0 + 1);
    LastTwoDigits(anio);
    TresPartes(a, b, c);
    var k := a + b + c;
    assert FechaClave(dia, mes0, anio) == k;
    assert ParseDecimal(k[..2]) == dia && ParseDecimal(k[2..4]) == mes0 + 1 && ParseDecimal(k[4..]) == anio % 100;
  }

  lemma TresPartes(a: string, b: string, c: string)
    requires |a| == 2 && |b| == 2 && |c| == 2
    requires AllDigits(a) && AllDigits(b) && AllDigits(c)
    ensures var k := a + b + c;
      |k| == 6 && AllDigits(k) && k[..2] == a && k[2..4] == b && k[4..] == c
  {
    var k := a + b + c;
    assert k[..2] == a && k[2..4] == b && k[4..] == c;
    assert forall i :: 0 <= i < 6 ==> k[i] == (if i < 2 then a[i] else if i < 4 then b[i - 2] else c[i - 4]);
  }

  /** A tracking number splits back into its key and its counter, so two
      numbers built from six-character keys are equal only when both the key
      and the counter are. */
  lemma GuiaDecodifica(clave: string, consecutivo: nat)
    requires |clave| == 6
    ensures var g := FormatoGuia(clave, consecutivo);
      g[..6] == clave && AllDigits(g[6..]) && ParseDecimal(g[6..]) == consecutivo
      && (consecutivo <= 99999 ==> |g| == 11)
  {
    var g := FormatoGuia(clave, consecutivo);
    assert g[6..] == PadStart(DecimalString(consecutivo), 5, '0');
    PaddedDecimalRoundTrip(consecutivo, 5);
    if consecutivo <= 99999 {
      DecimalStringLength(consecutivo, 5);
    }
  }

  lemma GuiaInyectiva(k1: string, c1: nat, k2: string, c2: nat)
    requires |k1| == 6 && |k2| == 6
    requires FormatoGuia(k1, c1) == FormatoGuia(k2, c2)
    ensures k1 == k2 && c1 == c2
  {
    GuiaDecodifica(k1, c1);
    GuiaDecodifica(k2, c2);
  }

  /** The first tracking number of 23 January 2026. */
  lemma EjemploGuia()
    ensures FormatoGuia(FechaClave(23, 0, 2026), 1) == "23012600001"
  {
    assert DecimalString(23) == "23";
    assert DecimalString(2026) == "2026";
  }

  // ---------------------------------------------------------------------
  // The tables and what the operations do to them
  // ---------------------------------------------------------------------

  /** The ids of the stored shipments. */
  function IdsDe(envios: map<string, FilaEnvio>): set<string> {
    set g | g in envios :: envios[g].id
  }

  /** Rows are keyed by their tracking number, ids are unique, every unit
      and history row belongs to a stored shipment, and history ids are
      below the next serial value. */
  ghost predicate TablasValidas(envios: map<string, FilaEnvio>, unidades: seq<FilaUnidad>, historial: seq<HistorialEstado>, siguiente: nat) {
    ClavesPropias(envios) && IdsUnicos(envios)
    && UnidadesConEnvio(unidades, IdsDe(envios)) && HistorialConEnvio(historial, IdsDe(envios), siguiente)
  }

  ghost predicate ClavesPropias(envios: map<string, FilaEnvio>) {
    forall g | g in envios :: envios[g].numeroGuia == g
  }

  ghost predicate IdsUnicos(envios: map<string, FilaEnvio>) {
    forall g1, g2 | g1 in envios && g2 in envios && envios[g1].id == envios[g2].id :: g1 == g2
  }

  ghost predicate UnidadesConEnvio(unidades: seq<FilaUnidad>, ids: set<string>) {
    forall i | 0 <= i < |unidades| :: unidades[i].envioId in ids
  }

  ghost predicate HistorialConEnvio(historial: seq<HistorialEstado>, ids: set<string>, siguiente: nat) {
    forall i | 0 <= i < |historial| :: historial[i].envioId in ids && historial[i].id < siguiente
  }

  /** findByGuia on given tables. */
  function EnvioEn(envios: map<string, FilaEnvio>, unidades: seq<FilaUnidad>, guia: string): Option<Envio> {
    if guia in envios then Some(EnvioDeFila(envios[guia], UnidadesDeEnvio(unidades, envios[guia].id))) else None
  }

  /** The history row save writes. */
  function FilaRegistro(siguiente: nat, e: Envio): HistorialEstado {
    HistorialEstado(siguiente, e.id, None, e.estado, None, Some(OBSERVACION_REGISTRO))
  }

  /** Saving a shipment with a new tracking number and a new id keeps the
      tables valid. */
  lemma GuardarValido(envios: map<string, FilaEnvio>, unidades: seq<FilaUnidad>, historial: seq<HistorialEstado>, siguiente: nat, e: Envio)
    requires TablasValidas(envios, unidades, historial, siguiente)
    requires e.numeroGuia !in envios && e.id !in IdsDe(envios)
    ensures TablasValidas(envios[e.numeroGuia := FilaDe(e)], unidades + FilasUnidad(e.id, e.unidades),
                          historial + [FilaRegistro(siguiente, e)], siguiente + 1)
  {
    IdsAlAgregar(envios, e.numeroGuia, FilaDe(e));
    ClavesAlAgregar(envios, FilaDe(e));
    IdsUnicosAlAgregar(envios, FilaDe(e));
    UnidadesAlAgregar(unidades, FilasUnidad(e.id, e.unidades), IdsDe(envios), e.id);
    HistorialAlAgregar(historial, FilaRegistro(siguiente, e), IdsDe(envios), e.id, siguiente);
  }

  lemma ClavesAlAgregar(envios: map<string, FilaEnvio>, f: FilaEnvio)
    requires ClavesPropias(envios)
    ensures ClavesPropias(envios[f.numeroGuia := f])
  {
  }

  lemma IdsUnicosAlAgregar(envios: map<string, FilaEnvio>, f: FilaEnvio)
    requires IdsUnicos(envios)
    requires f.numeroGuia !in envios && f.id !in IdsDe(envios)
    ensures IdsUnicos(envios[f.numeroGuia := f])
  {
    var envios2 := envios[f.numeroGuia := f];
    forall g1, g2 | g1 in envios2 && g2 in envios2 && envios2[g1].id == envios2[g2].id
      ensures g1 == g2
    {
      if g1 != f.numeroGuia && g2 != f.numeroGuia {
        assert envios2[g1] == envios[g1] && envios2[g2] == envios[g2];
      }
    }
  }

  lemma UnidadesAlAgregar(unidades: seq<FilaUnidad>, nuevas: seq<FilaUnidad>, ids: set<string>, id: string)
    requires UnidadesConEnvio(unidades, ids)
    requires forall i | 0 <= i < |nuevas| :: nuevas[i].envioId == id
    ensures UnidadesConEnvio(unidades + nuevas, ids + {id})
  {
    var u2 := unidades + nuevas;
    forall i | 0 <= i < |u2|
      ensures u2[i].envioId in ids + {id}
    {
      if i < |unidades| {
        assert u2[i] == unidades[i];
      } else {
        assert u2[i] == nuevas[i - |unidades|];
      }
    }
  }

  lemma HistorialAlAgregar(historial: seq<HistorialEstado>, fila: HistorialEstado, ids: set<string>, id: string, siguiente: nat)
    requires HistorialConEnvio(historial, ids, siguiente)
    requires fila.envioId == id && fila.id == siguiente
    ensures HistorialConEnvio(historial + [fila], ids + {id}, siguiente + 1)
  {
    var h2 := historial + [fila];
    forall i | 0 <= i < |h2|
      ensures h2[i].envioId in ids + {id} && h2[i].id < siguiente + 1
    {
      if i < |historial| {
        assert h2[i] == historial[i];
      }
    }
  }

  /** Adding a row under a new tracking number keeps every id and adds the
      row's own. */
  lemma IdsAlAgregar(envios: map<string, FilaEnvio>, g: string, f: FilaEnvio)
    requires g !in envios
    ensures IdsDe(envios[g := f]) == IdsDe(envios) + {f.id}
  {
    var envios2 := envios[g := f];
    forall x | x in IdsDe(envios)
      ensures x in IdsDe(envios2)
    {
      var h :| h in envios && envios[h].id == x;
      assert envios2[h] == envios[h];
    }
    assert envios2[g].id == f.id;
  }

  /** A shipment with a new id has the creation row alone as its history. */
  lemma HistorialInicial(historial: seq<HistorialEstado>, ids: set<string>, siguiente: nat, e: Envio)
    requires HistorialConEnvio(historial, ids, siguiente) && e.id !in ids
    ensures HistorialDe(historial + [FilaRegistro(siguiente, e)], e.id) == [FilaRegistro(siguiente, e)]
  {
    HistorialAjeno(historial, e.id);
    HistorialDeAgregar(historial, FilaRegistro(siguiente, e), e.id);
  }

  /** The saved shipment reads back as stored with the creation row alone
      as its history, and every other shipment reads back as before. */
  lemma GuardarLee(envios: map<string, FilaEnvio>, unidades: seq<FilaUnidad>, historial: seq<HistorialEstado>, siguiente: nat, e: Envio)
    requires TablasValidas(envios, unidades, historial, siguiente)
    requires e.numeroGuia !in envios && e.id !in IdsDe(envios)
    ensures var envios2 := envios[e.numeroGuia := FilaDe(e)];
      var unidades2 := unidades + FilasUnidad(e.id, e.unidades);
      EnvioEn(envios2, unidades2, e.numeroGuia) == Some(Almacenado(e))
      && HistorialDe(historial + [FilaRegistro(siguiente, e)], e.id) == [FilaRegistro(siguiente, e)]
      && forall g | g in envios :: EnvioEn(envios2, unidades2, g) == EnvioEn(envios, unidades, g)
  {
    HistorialInicial(historial, IdsDe(envios), siguiente, e);
    var envios2 := envios[e.numeroGuia := FilaDe(e)];
    var nuevas := FilasUnidad(e.id, e.unidades);
    var unidades2 := unidades + nuevas;
    UnidadesAjenas(unidades, e.id);
    UnidadesDeConcat(unidades, nuevas, e.id);
    UnidadesDeFilas(e.id, e.unidades, e.id + "'");
    assert UnidadesDeEnvio(unidades2, e.id) == e.unidades;
    forall g | g in envios
      ensures EnvioEn(envios2, unidades2, g) == EnvioEn(envios, unidades, g)
    {
      assert envios[g].id in IdsDe(envios);
      GuardarNoAfecta(envios, unidades, e, g);
    }
  }

  /** Saving a shipment under another tracking number and another id does
      not change how a stored shipment reads back. */
  lemma GuardarNoAfecta(envios: map<string, FilaEnvio>, unidades: seq<FilaUnidad>, e: Envio, g: string)
    requires g in envios && g != e.numeroGuia && envios[g].id != e.id
    ensures EnvioEn(envios[e.numeroGuia := FilaDe(e)], unidades + FilasUnidad(e.id, e.unidades), g) == EnvioEn(envios, unidades, g)
  {
    var envios2 := envios[e.numeroGuia := FilaDe(e)];
    var nuevas := FilasUnidad(e.id, e.unidades);
    var id := envios[g].id;
    assert envios2[g] == envios[g];
    UnidadesDeConcat(unidades, nuevas, id);
    UnidadesDeFilas(e.id, e.unidades, id);
    assert UnidadesDeEnvio(nuevas, id) == [];
    var us := UnidadesDeEnvio(unidades + nuevas, id);
    assert us == UnidadesDeEnvio(unidades, id);
    assert g in envios2 && envios2[g].id == id;
    assert EnvioEn(envios2, unidades + nuevas, g) == Some(EnvioDeFila(envios[g], us));
  }

  /** The history row updateEstado writes. */
  function FilaCambio(siguiente: nat, prev: FilaEnvio, nuevo: Estado, ubicacion: Option<string>, observacion: Option<string>): HistorialEstado {
    HistorialEstado(siguiente, prev.id, Some(prev.estado), nuevo, OrNull(ubicacion), OrNull(observacion))
  }

  /** Changing the state of a stored shipment keeps the tables valid. */
  lemma ActualizarValido(envios: map<string, FilaEnvio>, unidades: seq<FilaUnidad>, historial: seq<HistorialEstado>, siguiente: nat,
                         guia: string, nuevo: Estado, ubicacion: Option<string>, observacion: Option<string>)
    requires TablasValidas(envios, unidades, historial, siguiente)
    requires guia in envios
    ensures TablasValidas(envios[guia := envios[guia].(estado := nuevo)], unidades,
                          historial + [FilaCambio(siguiente, envios[guia], nuevo, ubicacion, observacion)], siguiente + 1)
  {
    var envios2 := envios[guia := envios[guia].(estado := nuevo)];
    forall x | x in IdsDe(envios)
      ensures x in IdsDe(envios2)
    {
      var g :| g in envios && envios[g].id == x;
      assert envios2[g].id == x;
    }
  }

  /** After changing the state of a stored shipment, it reads back with the
      new state and nothing else changed, its history grows by the one row,
      and every other shipment reads back as before. */
  lemma ActualizarLee(envios: map<string, FilaEnvio>, unidades: seq<FilaUnidad>, historial: seq<HistorialEstado>, siguiente: nat,
                      guia: string, nuevo: Estado, ubicacion: Option<string>, observacion: Option<string>)
    requires guia in envios
    ensures var prev := envios[guia];
      var fila := FilaCambio(siguiente, prev, nuevo, ubicacion, observacion);
      var envios2 := envios[guia := prev.(estado := nuevo)];
      EnvioEn(envios2, unidades, guia) == Some(EnvioEn(envios, unidades, guia).value.(estado := nuevo))
      && HistorialDe(historial + [fila], prev.id) == HistorialDe(historial, prev.id) + [fila]
      && forall g | g in envios && g != guia :: EnvioEn(envios2, unidades, g) == EnvioEn(envios, unidades, g)
  {
    var prev := envios[guia];
    var fila := FilaCambio(siguiente, prev, nuevo, ubicacion, observacion);
    var envios2 := envios[guia := prev.(estado := nuevo)];
    HistorialDeAgregar(historial, fila, prev.id);
    forall g | g in envios && g != guia
      ensures EnvioEn(envios2, unidades, g) == EnvioEn(envios, unidades, g)
    {
      assert envios2[g] == envios[g];
    }
  }

  /** The loop of save that inserts one `envio_unidades` row per unit, in
      order, all carrying the shipment's id. */
  method InsertarUnidades(filas: seq<FilaUnidad>, id: string, us: seq<UnidadCalculada>) returns (r: seq<FilaUnidad>)
    ensures r == filas + FilasUnidad(id, us)
  {
    r := filas;
    var i := 0;
    while i < |us|
      invariant 0 <= i <= |us|
      invariant r == filas + FilasUnidad(id, us[..i])
    {
      assert us[..i + 1][..i] == us[..i];
      r := r + [FilaUnidad(id, us[i])];
      i := i + 1;
    }
    assert us[..i] == us;
  }

  // ---------------------------------------------------------------------
  // The repository
  // ---------------------------------------------------------------------

  class PostgresEnvioRepository {
    var envios: map<string, FilaEnvio>
    var unidades: seq<FilaUnidad>
    var historial: seq<HistorialEstado>
    var secuencias: map<string, nat>
    var siguienteIdHistorial: nat
    const tarifas: seq<Tarifa>

    ghost predicate Valid()
      reads this
    {
      TablasValidas(envios, unidades, historial, siguienteIdHistorial)
    }

    constructor (tarifas: seq<Tarifa>)
      ensures Valid()
      ensures envios == map[] && unidades == [] && historial == [] && secuencias == map[]
      ensures this.tarifas == tarifas
    {
      envios := map[];
      unidades := [];
      historial := [];
      secuencias := map[];
      siguienteIdHistorial := 0;
      this.tarifas := tarifas;
    }

    /** findByGuia. */
    function FindByGuia(guia: string): (r: Option<Envio>)
      reads this
      ensures r.None? <==> guia !in envios
      ensures r.Some? ==> r.value.estado == envios[guia].estado && r.value.moneda == MONEDA_POR_DEFECTO
      ensures r.Some? ==> r.value.unidades == UnidadesDeEnvio(unidades, envios[guia].id)
    {
      EnvioEn(envios, unidades, guia)
    }

    /** getHistorial. */
    function GetHistorial(envioId: string): (r: seq<HistorialEstado>)
      reads this
      ensures forall x :: x in r <==> x in historial && x.envioId == envioId
    {
      HistorialDe(historial, envioId)
    }

    /** getTarifa. */
    function GetTarifa(origen: string, destino: string, tipoProducto: string): (r: Result<Option<TarifaBase>, string>)
      ensures r.Success? && r.value.None? <==> forall t :: t in tarifas ==> !Coincide(t, origen, destino, tipoProducto)
    {
      BuscarTarifa(tarifas, origen, destino, tipoProducto)
    }

    /** getAllTarifas. */
    function GetAllTarifas(): (r: seq<Tarifa>)
      ensures forall t :: t in r <==> t in tarifas && t.activo
    {
      TarifasActivas(tarifas)
    }

    /** save: one transaction that inserts the shipment, its units in order
        and the creation history row; a duplicate tracking number or id
        violates a key and rolls everything back. */
    method Save(e: Envio) returns (ok: bool)
      requires Valid()
      modifies this
      ensures Valid()
      ensures ok <==> old(e.numeroGuia !in envios && e.id !in IdsDe(envios))
      ensures secuencias == old(secuencias)
      ensures !ok ==> envios == old(envios) && unidades == old(unidades) && historial == old(historial)
                      && siguienteIdHistorial == old(siguienteIdHistorial)
      ensures ok ==> envios == old(envios)[e.numeroGuia := FilaDe(e)]
      ensures ok ==> unidades == old(unidades) + FilasUnidad(e.id, e.unidades)
      ensures ok ==> historial == old(historial) + [FilaRegistro(old(siguienteIdHistorial), e)]
      ensures ok ==> siguienteIdHistorial == old(siguienteIdHistorial) + 1
    {
      if e.numeroGuia in envios || e.id in IdsDe(envios) {
        return false;
      }
      GuardarValido(envios, unidades, historial, siguienteIdHistorial, e);
      var filas := InsertarUnidades(unidades, e.id, e.unidades);
      envios, unidades, historial, siguienteIdHistorial :=
        envios[e.numeroGuia := FilaDe(e)], filas, historial + [FilaRegistro(siguienteIdHistorial, e)], siguienteIdHistorial + 1;
      ok := true;
    }

    /** updateEstado: null for an unknown tracking number; otherwise the row
        takes the new state, a history row records the previous and the new
        state with empty location or note stored as null, and the shipment
        is read back. */
    method UpdateEstado(guia: string, nuevo: Estado, ubicacion: Option<string>, observacion: Option<string>) returns (r: Option<Envio>)
      requires Valid()
      modifies this
      ensures Valid()
      ensures unidades == old(unidades) && secuencias == old(secuencias)
      ensures guia !in old(envios) ==>
                r.None? && envios == old(envios) && historial == old(historial)
                && siguienteIdHistorial == old(siguienteIdHistorial)
      ensures guia in old(envios) ==>
                var prev := old(envios[guia]);
                var fila := FilaCambio(old(siguienteIdHistorial), prev, nuevo, ubicacion, observacion);
                envios == old(envios)[guia := prev.(estado := nuevo)]
                && historial == old(historial) + [fila]
                && siguienteIdHistorial == old(siguienteIdHistorial) + 1
                && r == Some(EnvioEn(old(envios), unidades, guia).value.(estado := nuevo))
    {
      if guia !in envios {
        return None;
      }
      var prev := envios[guia];
      var envios2 := envios[guia := prev.(estado := nuevo)];
      var historial2 := historial + [FilaCambio(siguienteIdHistorial, prev, nuevo, ubicacion, observacion)];
      var siguiente2 := siguienteIdHistorial + 1;
      ActualizarValido(envios, unidades, historial, siguienteIdHistorial, guia, nuevo, ubicacion, observacion);
      envios, historial, siguienteIdHistorial := envios2, historial2, siguiente2;
      r := FindByGuia(guia);
    }

    /** getNextGuiaNumber for the given date: the upsert on `guia_secuencia`
        and the number built from the key and the counter it returns. */
    method GetNextGuiaNumber(dia: nat, mes0: nat, anio: nat) returns (guia: string)
      modifies this`secuencias
      ensures var k := FechaClave(dia, mes0, anio);
        secuencias == old(secuencias)[k := Consecutivo(old(secuencias), k)]
        && guia == FormatoGuia(k, Consecutivo(old(secuencias), k))
    {
      var k := FechaClave(dia, mes0, anio);
      var c := Consecutivo(secuencias, k);
      secuencias := secuencias[k := c];
      guia := FormatoGuia(k, c);
    }
  }
}
