/** The shipment entity: the three-state lifecycle, the billable-weight rule
    for one unit, and the constructor defaults. */
module EnvioEntity {
  import opened Wrappers

  // ---------------------------------------------------------------------
  // Lifecycle
  // ---------------------------------------------------------------------

  datatype Estado = EnEspera | EnTransito | Entregado

  /** The literal the source stores and compares for each state. */
  function Literal(e: Estado): string {
    match e
    case EnEspera => "En espera"
    case EnTransito => "En tránsito"
    case Entregado => "Entregado"
  }

  lemma LiteralInjective(a: Estado, b: Estado)
    ensures Literal(a) == Literal(b) ==> a == b
  {
    if Literal(a) == Literal(b) {
      assert Literal(a)[1] == Literal(b)[1];
      assert |Literal(a)| == |Literal(b)|;
    }
  }

  /** ESTADOS_VALIDOS, in the source's order. */
  const ESTADOS_VALIDOS: seq<Estado> := [EnEspera, EnTransito, Entregado]

  /** TRANSICIONES_ESTADO: the states each state may move to. */
  function Transiciones(e: Estado): seq<Estado> {
    match e
    case EnEspera => [EnTransito]
    case EnTransito => [Entregado]
    case Entregado => []
  }

  /** Position of a state along the only route through the lifecycle. */
  function Rank(e: Estado): nat {
    match e
    case EnEspera => 0
    case EnTransito => 1
    case Entregado => 2
  }

  /** validarTransicionEstado: the target is listed for the current state,
      which holds for exactly the two edges of the graph. */
  function ValidarTransicionEstado(actual: Estado, nuevo: Estado): (ok: bool)
    ensures ok <==> (actual == EnEspera && nuevo == EnTransito) || (actual == EnTransito && nuevo == Entregado)
  {
    nuevo in Transiciones(actual)
  }

  /** A legal transition moves exactly one step forward: never to itself,
      never backwards, never skipping, never out of Entregado; and every
      one-step-forward move is legal. */
  lemma TransicionEsUnPaso(actual: Estado, nuevo: Estado)
    ensures ValidarTransicionEstado(actual, nuevo) <==> Rank(nuevo) == Rank(actual) + 1
    ensures !ValidarTransicionEstado(actual, actual)
    ensures !ValidarTransicionEstado(Entregado, nuevo)
  {
  }

  /** The states reachable from `e` in `k` legal steps. */
  function Alcanzables(e: Estado, k: nat): set<Estado>
    decreases k
  {
    if k == 0 then {e}
    else set a, b | a in Alcanzables(e, k - 1) && b in ESTADOS_VALIDOS && ValidarTransicionEstado(a, b) :: b
  }

  /** Going through the lifecycle from En espera: after k steps the shipment
      is at rank k, and no legal step exists from the third state on. */
  lemma {:induction false} AlcanzablesDesdeEnEspera(k: nat)
    ensures k <= 2 ==> Alcanzables(EnEspera, k) == set e | e in ESTADOS_VALIDOS && Rank(e) == k
    ensures k > 2 ==> Alcanzables(EnEspera, k) == {}
    decreases k
  {
    if k > 0 {
      AlcanzablesDesdeEnEspera(k - 1);
      if k <= 2 {
        var s := set e | e in ESTADOS_VALIDOS && Rank(e) == k;
        forall b | b in s ensures b in Alcanzables(EnEspera, k) {
          var a := if k == 1 then EnEspera else EnTransito;
          assert a in Alcanzables(EnEspera, k - 1);
          assert ValidarTransicionEstado(a, b);
        }
      }
    }
  }

  /** esEstadoValido: the string is one of the three literals. */
  function EsEstadoValido(s: string): (ok: bool)
    ensures ok <==> exists e :: Literal(e) == s
  {
    assert Literal(EnEspera) == "En espera";
    assert Literal(EnTransito) == "En tránsito";
    assert Literal(Entregado) == "Entregado";
    s in ["En espera", "En tránsito", "Entregado"]
  }

  /** The state named by a valid literal (the source's narrowing `estado is
      EstadoEnvio`). */
  function ParseEstado(s: string): (r: Option<Estado>)
    ensures r.Some? <==> EsEstadoValido(s)
    ensures r.Some? ==> Literal(r.value) == s
  {
    if s == "En espera" then Some(EnEspera)
    else if s == "En tránsito" then Some(EnTransito)
    else if s == "Entregado" then Some(Entregado)
    else None
  }

  lemma ParseLiteral(e: Estado)
    ensures ParseEstado(Literal(e)) == Some(e)
  {
    LiteralInjective(e, ParseEstado(Literal(e)).value);
  }

  // ---------------------------------------------------------------------
  // Billable weight of one unit
  // ---------------------------------------------------------------------

  /** A unit as the caller supplies it; the optional computed fields of the
      source's UnidadEnvio are overwritten by calcularUnidad, so they are
      not carried here. */
  datatype UnidadEnvio = UnidadEnvio(pesoReal: real, alto: real, ancho: real, largo: real)

  /** A unit after calcularUnidad: rounded dimensions and both derived weights. */
  datatype UnidadCalculada = UnidadCalculada(
    pesoReal: real,
    alto: int,
    ancho: int,
    largo: int,
    pesoVolumetrico: int,
    pesoFacturable: real)

  const FACTOR_VOLUMETRICO_POR_DEFECTO: real := 2500.0

  /** `k` is the smallest integer not below `x`. */
  predicate IsCeiling(k: int, x: real) {
    x <= k as real < x + 1.0
  }

  /** Math.ceil on an exact real. */
  function Ceil(x: real): (k: int)
    ensures IsCeiling(k, x)
  {
    -((-x).Floor)
  }

  lemma CeilMonotone(x: real, y: real)
    requires x <= y
    ensures Ceil(x) <= Ceil(y)
  {
  }

  function Max(a: real, b: real): real {
    if a >= b then a else b
  }

  function Volumen(u: UnidadCalculada): int {
    u.alto * u.ancho * u.largo
  }

  /** calcularUnidad: each dimension rounded up, volumetric weight the
      rounded volume over the factor rounded up, billable weight the larger
      of the real weight (not rounded) and the volumetric weight. A missing
      factor means 2500. */
  function CalcularUnidad(u: UnidadEnvio, factorVolumetrico: Option<real>): (r: UnidadCalculada)
    requires factorVolumetrico.GetOr(FACTOR_VOLUMETRICO_POR_DEFECTO) > 0.0
    ensures r.pesoReal == u.pesoReal
    ensures IsCeiling(r.alto, u.alto) && IsCeiling(r.ancho, u.ancho) && IsCeiling(r.largo, u.largo)
    ensures IsCeiling(r.pesoVolumetrico, Volumen(r) as real / factorVolumetrico.GetOr(FACTOR_VOLUMETRICO_POR_DEFECTO))
    ensures r.pesoFacturable >= u.pesoReal && r.pesoFacturable >= r.pesoVolumetrico as real
    ensures r.pesoFacturable == u.pesoReal || r.pesoFacturable == r.pesoVolumetrico as real
  {
    var factor := factorVolumetrico.GetOr(FACTOR_VOLUMETRICO_POR_DEFECTO);
    var alto := Ceil(u.alto);
    var ancho := Ceil(u.ancho);
    var largo := Ceil(u.largo);
    var pesoVolumetrico := Ceil((alto * ancho * largo) as real / factor);
    UnidadCalculada(u.pesoReal, alto, ancho, largo, pesoVolumetrico, Max(u.pesoReal, pesoVolumetrico as real))
  }

  /** The volumetric weight is the least whole number of factor-sized blocks
      that covers the rounded volume. */
  lemma PesoVolumetricoCubreVolumen(u: UnidadEnvio, factor: real)
    requires factor > 0.0
    ensures var r := CalcularUnidad(u, Some(factor));
      (r.pesoVolumetrico as real) * factor >= Volumen(r) as real &&
      ((r.pesoVolumetrico - 1) as real) * factor < Volumen(r) as real
  {
    var r := CalcularUnidad(u, Some(factor));
    var q := Volumen(r) as real / factor;
    assert q * factor == Volumen(r) as real;
    MultiplicarPorPositivo(q, r.pesoVolumetrico as real, factor);
    assert (r.pesoVolumetrico - 1) as real == r.pesoVolumetrico as real - 1.0 < q;
    var km1 := (r.pesoVolumetrico - 1) as real;
    MultiplicarPorPositivoEstricto(km1, q, factor);
    assert km1 * factor < q * factor;
    assert km1 * factor < Volumen(r) as real;
  }

  lemma MultiplicarPorPositivo(a: real, b: real, f: real)
    requires a <= b && f > 0.0
    ensures a * f <= b * f
  {
  }

  lemma MultiplicarPorPositivoEstricto(a: real, b: real, f: real)
    requires a < b && f > 0.0
    ensures a * f < b * f
  {
  }

  /** Bigger boxes and heavier parcels never cost less: the billable weight
      grows with every dimension and with the real weight (positive sizes). */
  lemma PesoFacturableMonotono(u: UnidadEnvio, v: UnidadEnvio, factor: real)
    requires factor > 0.0
    requires 0.0 < u.alto <= v.alto && 0.0 < u.ancho <= v.ancho && 0.0 < u.largo <= v.largo
    requires u.pesoReal <= v.pesoReal
    ensures CalcularUnidad(u, Some(factor)).pesoFacturable <= CalcularUnidad(v, Some(factor)).pesoFacturable
  {
    var ru := CalcularUnidad(u, Some(factor));
    var rv := CalcularUnidad(v, Some(factor));
    CeilMonotone(u.alto, v.alto);
    CeilMonotone(u.ancho, v.ancho);
    CeilMonotone(u.largo, v.largo);
    ProductoMonotono(ru.alto, ru.ancho, ru.largo, rv.alto, rv.ancho, rv.largo);
    DivisionMonotona(Volumen(ru) as real, Volumen(rv) as real, factor);
    CeilMonotone(Volumen(ru) as real / factor, Volumen(rv) as real / factor);
  }

  lemma ProductoMonotono(a: int, b: int, c: int, x: int, y: int, z: int)
    requires 0 < a <= x && 0 < b <= y && 0 < c <= z
    ensures a * b * c <= x * y * z
  {
    MultiplicarEnteros(a, x, b);
    MultiplicarEnteros(b, y, x);
    assert a * b <= x * y;
    MultiplicarEnteros(a * b, x * y, c);
    MultiplicarEnteros(c, z, x * y);
  }

  lemma MultiplicarEnteros(a: int, x: int, k: int)
    requires a <= x && k > 0
    ensures a * k <= x * k && k * a <= k * x
  {
  }

  lemma DivisionMonotona(p: real, q: real, f: real)
    requires p <= q && f > 0.0
    ensures p / f <= q / f
  {
  }

  /** The unit examples of the domain tests. */
  lemma EjemplosCalcularUnidad()
    ensures var r := CalcularUnidad(UnidadEnvio(10.0, 10.2, 20.5, 30.1), Some(2500.0));
      r.alto == 11 && r.ancho == 21 && r.largo == 31 && r.pesoVolumetrico == 3 && r.pesoFacturable == 10.0
    ensures var r := CalcularUnidad(UnidadEnvio(2.0, 11.0, 21.0, 31.0), Some(2500.0));
      r.pesoVolumetrico == 3 && r.pesoFacturable == 3.0
    ensures var r := CalcularUnidad(UnidadEnvio(10.0, 10.0, 10.0, 10.0), None);
      r.pesoVolumetrico == 1 && r.pesoFacturable == 10.0
  {
    assert Ceil(10.2) == 11 && Ceil(20.5) == 21 && Ceil(30.1) == 31;
    assert Ceil(7161.0 / 2500.0) == 3;
    assert Ceil(11.0) == 11 && Ceil(21.0) == 21 && Ceil(31.0) == 31;
    assert Ceil(10.0) == 10 && Ceil(1000.0 / 2500.0) == 1;
  }

  // ---------------------------------------------------------------------
  // The entity
  // ---------------------------------------------------------------------

  datatype TipoProducto = Paquete | Documento

  function TipoProductoLiteral(t: TipoProducto): string {
    match t
    case Paquete => "PAQUETE"
    case Documento => "DOCUMENTO"
  }

  datatype MetodoPago = FletePago | ContraEntrega | Recaudo

  datatype Remitente = Remitente(nombre: string, direccion: string, telefono: string)

  datatype Destinatario = Destinatario(nombre: string, direccion: string, telefono: string, infoAdicional: Option<string>)

  /** EnvioProps: `estado` and `moneda` may be absent. */
  datatype EnvioProps = EnvioProps(
    id: string,
    numeroGuia: string,
    tipoProducto: TipoProducto,
    origen: string,
    destino: string,
    valorDeclarado: real,
    metodoPago: MetodoPago,
    unidades: seq<UnidadCalculada>,
    valorTotalCotizacion: real,
    remitente: Remitente,
    destinatario: Destinatario,
    estado: Option<Estado>,
    moneda: Option<string>)

  /** EnvioEntity: every field is set once by the constructor. */
  datatype Envio = Envio(
    id: string,
    numeroGuia: string,
    tipoProducto: TipoProducto,
    origen: string,
    destino: string,
    valorDeclarado: real,
    metodoPago: MetodoPago,
    unidades: seq<UnidadCalculada>,
    valorTotalCotizacion: real,
    remitente: Remitente,
    destinatario: Destinatario,
    estado: Estado,
    moneda: string)

  const MONEDA_POR_DEFECTO: string := "COP"

  /** The constructor: copies every field, and fills in 'En espera' and 'COP'
      when the state or the currency is absent. */
  function NuevoEnvio(p: EnvioProps): (e: Envio)
    ensures e.estado == (if p.estado.None? then EnEspera else p.estado.value)
    ensures e.moneda == (if p.moneda.None? then "COP" else p.moneda.value)
    ensures AsProps(e).(estado := p.estado, moneda := p.moneda) == p
  {
    Envio(p.id, p.numeroGuia, p.tipoProducto, p.origen, p.destino, p.valorDeclarado, p.metodoPago,
          p.unidades, p.valorTotalCotizacion, p.remitente, p.destinatario,
          p.estado.GetOr(EnEspera), p.moneda.GetOr(MONEDA_POR_DEFECTO))
  }

  /** An entity passed back to the constructor (`new EnvioEntity(envio)`). */
  function AsProps(e: Envio): EnvioProps {
    EnvioProps(e.id, e.numeroGuia, e.tipoProducto, e.origen, e.destino, e.valorDeclarado, e.metodoPago,
               e.unidades, e.valorTotalCotizacion, e.remitente, e.destinatario,
               Some(e.estado), Some(e.moneda))
  }

  /** Rebuilding an entity from itself changes nothing, so the defaults are
      applied once: the state a shipment was built with survives a reload. */
  lemma ReconstruirEsIdentidad(e: Envio)
    ensures NuevoEnvio(AsProps(e)) == e
  {
  }
}
