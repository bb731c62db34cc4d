/** ConsultarTarifasAppService: the active rates (cache first, then the
    database), grouped by route in the order the routes first appear, with
    the flat list beside them. */
module ConsultarTarifas {
  import opened Wrappers
  import opened EnvioEntity
  import opened EnvioRepository
  import opened RedisCache
  import opened PostgresRepository
  import opened ClavesCache
  import opened Coherencia
  import opened CotizarEnvio

  const CACHE_TTL_TARIFAS: int := 600
  const MONEDA_TARIFAS: string := "COP"
  const DESCRIPCION: string := "Tarifas por kilogramo facturable. El peso facturable es el mayor entre el peso real y el peso volumétrico (alto*ancho*largo/factor_volumetrico)"

  /** One product of a route group. */
  datatype Producto = Producto(tipoProducto: string, precioBase: real, factorVolumetrico: real)

  /** A route group: the names of the first row of the route and the
      products of all its rows. */
  datatype GrupoRuta = GrupoRuta(origen: string, destino: string, productos: seq<Producto>)

  /** A row of `tarifasDetalle`. */
  datatype TarifaDetalle = TarifaDetalle(id: int, origen: string, destino: string, tipoProducto: string, precioBase: real, factorVolumetrico: real)

  /** The response. */
  datatype Listado = Listado(
    totalTarifas: nat,
    moneda: string,
    descripcion: string,
    fromCache: bool,
    tarifas: seq<GrupoRuta>,
    tarifasDetalle: seq<TarifaDetalle>)

  function RutaDe(t: Tarifa): string {
    Ruta(t.origen, t.destino)
  }

  function Clave(g: GrupoRuta): string {
    Ruta(g.origen, g.destino)
  }

  function ProductoDe(t: Tarifa): Producto {
    Producto(t.tipoProducto, t.precioBase, t.factorVolumetrico)
  }

  // ---------------------------------------------------------------------
  // The grouping, as a fold
  // ---------------------------------------------------------------------

  /** The first group with key `k` (`acc[ruta]`). */
  function Posicion(gs: seq<GrupoRuta>, k: string): (r: Option<nat>)
    ensures r.Some? ==> r.value < |gs| && Clave(gs[r.value]) == k
    ensures r.None? ==> forall j :: 0 <= j < |gs| ==> Clave(gs[j]) != k
  {
    if gs == [] then None
    else if Clave(gs[0]) == k then Some(0)
    else match Posicion(gs[1..], k)
      case None => None
      case Some(j) => Some(j + 1)
  }

  /** One step of the reduce: push the row's product onto its route's
      group, opening the group with the row's names when it is new. */
  function Agregar(gs: seq<GrupoRuta>, t: Tarifa): seq<GrupoRuta> {
    match Posicion(gs, RutaDe(t))
    case Some(j) => gs[j := gs[j].(productos := gs[j].productos + [ProductoDe(t)])]
    case None => gs + [GrupoRuta(t.origen, t.destino, [ProductoDe(t)])]
  }

  /** `Object.values(tarifas.reduce(...))`: the keys always contain " - ",
      so none is an array index and the object keeps insertion order. */
  function Agrupar(ts: seq<Tarifa>): seq<GrupoRuta> {
    if ts == [] then [] else Agregar(Agrupar(ts[..|ts| - 1]), ts[|ts| - 1])
  }

  // ---------------------------------------------------------------------
  // An independent description of the groups
  // ---------------------------------------------------------------------

  function Rutas(ts: seq<Tarifa>): (r: seq<string>)
    ensures |r| == |ts|
    ensures forall i :: 0 <= i < |ts| ==> r[i] == RutaDe(ts[i])
  {
    if ts == [] then [] else Rutas(ts[..|ts| - 1]) + [RutaDe(ts[|ts| - 1])]
  }

  /** The keys in the order they first appear, each once. */
  function PrimerasApariciones(ks: seq<string>): seq<string> {
    if ks == [] then []
    else
      var p := PrimerasApariciones(ks[..|ks| - 1]);
      if ks[|ks| - 1] in p then p else p + [ks[|ks| - 1]]
  }

  /** The first row of route `k`. */
  function PrimeraCon(ts: seq<Tarifa>, k: string): Option<Tarifa> {
    if ts == [] then None
    else
      var p := PrimeraCon(ts[..|ts| - 1], k);
      if p.Some? then p else if RutaDe(ts[|ts| - 1]) == k then Some(ts[|ts| - 1]) else None
  }

  /** The products of the rows of route `k`, in row order. */
  function ProductosCon(ts: seq<Tarifa>, k: string): seq<Producto> {
    if ts == [] then []
    else ProductosCon(ts[..|ts| - 1], k) + (if RutaDe(ts[|ts| - 1]) == k then [ProductoDe(ts[|ts| - 1])] else [])
  }

  function Claves(gs: seq<GrupoRuta>): (r: seq<string>)
    ensures |r| == |gs|
    ensures forall i :: 0 <= i < |gs| ==> r[i] == Clave(gs[i])
  {
    seq(|gs|, i requires 0 <= i < |gs| => Clave(gs[i]))
  }

  /** A group is right for the rows when it carries the names of the
      route's first row and the products of all the route's rows. */
  predicate GrupoDe(ts: seq<Tarifa>, g: GrupoRuta) {
    var p := PrimeraCon(ts, Clave(g));
    p.Some? && g.origen == p.value.origen && g.destino == p.value.destino
    && g.productos == ProductosCon(ts, Clave(g))
  }

  predicate Distintas(ks: seq<string>) {
    forall i, j :: 0 <= i < j < |ks| ==> ks[i] != ks[j]
  }

  lemma {:induction false} PrimerasAparicionesMiembros(ks: seq<string>)
    ensures forall x :: x in PrimerasApariciones(ks) <==> x in ks
    ensures Distintas(PrimerasApariciones(ks))
  {
    if ks != [] {
      var init := ks[..|ks| - 1];
      PrimerasAparicionesMiembros(init);
      assert ks == init + [ks[|ks| - 1]];
    }
  }

  lemma {:induction false} RutaAusente(ts: seq<Tarifa>, k: string)
    requires k !in Rutas(ts)
    ensures PrimeraCon(ts, k).None? && ProductosCon(ts, k) == []
  {
    if ts != [] {
      var init := ts[..|ts| - 1];
      assert Rutas(ts) == Rutas(init) + [RutaDe(ts[|ts| - 1])];
      RutaAusente(init, k);
    }
  }

  lemma {:induction false} PrimeraConSiempre(ts: seq<Tarifa>, t: Tarifa, k: string)
    requires ts != [] && t == ts[|ts| - 1] && PrimeraCon(ts[..|ts| - 1], k).Some?
    ensures PrimeraCon(ts, k) == PrimeraCon(ts[..|ts| - 1], k)
  {
  }

  /** Every group is right for the rows. */
  ghost predicate GruposDe(ts: seq<Tarifa>, gs: seq<GrupoRuta>) {
    forall i :: 0 <= i < |gs| ==> GrupoDe(ts, gs[i])
  }

  /** The step of the fold for a row whose route already has group `j`. */
  lemma AgregarConocida(ts: seq<Tarifa>, gs: seq<GrupoRuta>, j: nat)
    requires ts != []
    requires Claves(gs) == PrimerasApariciones(Rutas(ts[..|ts| - 1]))
    requires GruposDe(ts[..|ts| - 1], gs)
    requires Posicion(gs, RutaDe(ts[|ts| - 1])) == Some(j)
    ensures Claves(Agregar(gs, ts[|ts| - 1])) == PrimerasApariciones(Rutas(ts))
    ensures GruposDe(ts, Agregar(gs, ts[|ts| - 1]))
  {
    var a, t := ts[..|ts| - 1], ts[|ts| - 1];
    var k := RutaDe(t);
    PrimerasAparicionesMiembros(Rutas(a));
    assert Rutas(ts) == Rutas(a) + [k];
    assert Rutas(ts)[..|Rutas(ts)| - 1] == Rutas(a);
    assert Claves(gs)[j] == k;
    assert k in PrimerasApariciones(Rutas(a));
    var gs2 := Agregar(gs, t);
    assert Claves(gs2) == Claves(gs);
    forall i | 0 <= i < |gs2|
      ensures GrupoDe(ts, gs2[i])
    {
      assert GrupoDe(a, gs[i]);
      PrimeraConSiempre(ts, t, Clave(gs[i]));
      if i != j {
        assert Claves(gs)[i] != Claves(gs)[j];
      }
    }
  }

  /** The step of the fold for a row whose route has no group yet. */
  lemma AgregarNueva(ts: seq<Tarifa>, gs: seq<GrupoRuta>)
    requires ts != []
    requires Claves(gs) == PrimerasApariciones(Rutas(ts[..|ts| - 1]))
    requires GruposDe(ts[..|ts| - 1], gs)
    requires Posicion(gs, RutaDe(ts[|ts| - 1])).None?
    ensures Claves(Agregar(gs, ts[|ts| - 1])) == PrimerasApariciones(Rutas(ts))
    ensures GruposDe(ts, Agregar(gs, ts[|ts| - 1]))
  {
    var a, t := ts[..|ts| - 1], ts[|ts| - 1];
    var k := RutaDe(t);
    PrimerasAparicionesMiembros(Rutas(a));
    assert Rutas(ts) == Rutas(a) + [k];
    assert Rutas(ts)[..|Rutas(ts)| - 1] == Rutas(a);
    assert k !in Claves(gs);
    assert k !in Rutas(a);
    RutaAusente(a, k);
    var gs2 := Agregar(gs, t);
    assert Claves(gs2) == Claves(gs) + [k];
    forall i | 0 <= i < |gs2|
      ensures GrupoDe(ts, gs2[i])
    {
      if i < |gs| {
        assert GrupoDe(a, gs[i]);
        PrimeraConSiempre(ts, t, Clave(gs[i]));
      }
    }
  }

  /** The fold produces exactly the groups described independently: one
      per route in first-appearance order, each with the first row's names
      and every product of the route in row order. */
  lemma {:induction false} AgruparCorrecto(ts: seq<Tarifa>)
    ensures Claves(Agrupar(ts)) == PrimerasApariciones(Rutas(ts))
    ensures forall i :: 0 <= i < |Agrupar(ts)| ==> GrupoDe(ts, Agrupar(ts)[i])
  {
    if ts != [] {
      var a := ts[..|ts| - 1];
      var gs := Agrupar(a);
      AgruparCorrecto(a);
      match Posicion(gs, RutaDe(ts[|ts| - 1]))
      case Some(j) => AgregarConocida(ts, gs, j);
      case None => AgregarNueva(ts, gs);
    }
  }

  /** Route groups never share a key, and a route has a group exactly when
      some row has that route. */
  lemma ClavesDeGrupos(ts: seq<Tarifa>)
    ensures Distintas(Claves(Agrupar(ts)))
    ensures forall k :: k in Claves(Agrupar(ts)) <==> exists i :: 0 <= i < |ts| && RutaDe(ts[i]) == k
  {
    AgruparCorrecto(ts);
    PrimerasAparicionesMiembros(Rutas(ts));
    forall k | k in Rutas(ts)
      ensures exists i :: 0 <= i < |ts| && RutaDe(ts[i]) == k
    {
      var i :| 0 <= i < |Rutas(ts)| && Rutas(ts)[i] == k;
    }
  }

  // ---------------------------------------------------------------------
  // Counting products
  // ---------------------------------------------------------------------

  function NumeroDeProductos(gs: seq<GrupoRuta>): nat {
    if gs == [] then 0 else NumeroDeProductos(gs[..|gs| - 1]) + |gs[|gs| - 1].productos|
  }

  lemma {:induction false} NumeroDeProductosActualizar(gs: seq<GrupoRuta>, j: nat, g: GrupoRuta)
    requires j < |gs|
    ensures NumeroDeProductos(gs[j := g]) + |gs[j].productos| == NumeroDeProductos(gs) + |g.productos|
  {
    var n := |gs| - 1;
    assert gs[j := g][..n] == if j == n then gs[..n] else gs[..n][j := g];
    if j < n {
      NumeroDeProductosActualizar(gs[..n], j, g);
    }
  }

  /** Every row lands in exactly one group: the groups hold as many
      products as there are rows. */
  lemma {:induction false} ProductosSumanFilas(ts: seq<Tarifa>)
    ensures NumeroDeProductos(Agrupar(ts)) == |ts|
  {
    if ts != [] {
      var a, t := ts[..|ts| - 1], ts[|ts| - 1];
      var gs := Agrupar(a);
      ProductosSumanFilas(a);
      match Posicion(gs, RutaDe(t))
      case Some(j) =>
        NumeroDeProductosActualizar(gs, j, gs[j].(productos := gs[j].productos + [ProductoDe(t)]));
      case None =>
        assert (gs + [GrupoRuta(t.origen, t.destino, [ProductoDe(t)])])[..|gs|] == gs;
    }
  }

  // ---------------------------------------------------------------------
  // The reduce as a loop
  // ---------------------------------------------------------------------

  /** The accumulator object: its keys in insertion order and its values. */
  ghost predicate Representa(orden: seq<string>, acc: map<string, GrupoRuta>, gs: seq<GrupoRuta>) {
    |orden| == |gs|
    && (forall j :: 0 <= j < |orden| ==> orden[j] in acc && acc[orden[j]] == gs[j] && orden[j] == Clave(gs[j]))
    && (forall k :: k in acc ==> k in orden)
    && Distintas(Claves(gs))
  }

  /** The reducer on a route not seen yet: the accumulator gains the
      route's key, opened with the row's names and its one product. */
  lemma PasoRutaNueva(orden: seq<string>, acc: map<string, GrupoRuta>, gs: seq<GrupoRuta>, t: Tarifa)
    requires Representa(orden, acc, gs) && RutaDe(t) !in acc
    requires Distintas(Claves(Agregar(gs, t)))
    ensures var acc1 := acc[RutaDe(t) := GrupoRuta(t.origen, t.destino, [])];
      Representa(orden + [RutaDe(t)], acc1[RutaDe(t) := acc1[RutaDe(t)].(productos := acc1[RutaDe(t)].productos + [ProductoDe(t)])], Agregar(gs, t))
  {
    var ruta := RutaDe(t);
    assert Posicion(gs, ruta).None?;
    var gs2 := Agregar(gs, t);
    assert gs2 == gs + [GrupoRuta(t.origen, t.destino, [ProductoDe(t)])];
  }

  /** The reducer on a route seen before: its group gains the product. */
  lemma PasoRutaConocida(orden: seq<string>, acc: map<string, GrupoRuta>, gs: seq<GrupoRuta>, t: Tarifa)
    requires Representa(orden, acc, gs) && RutaDe(t) in acc
    requires Distintas(Claves(Agregar(gs, t)))
    ensures Representa(orden, acc[RutaDe(t) := acc[RutaDe(t)].(productos := acc[RutaDe(t)].productos + [ProductoDe(t)])], Agregar(gs, t))
  {
    var ruta := RutaDe(t);
    var j :| 0 <= j < |orden| && orden[j] == ruta;
    var p := Posicion(gs, ruta).value;
    assert Claves(gs)[p] == Claves(gs)[j];
    assert p == j;
    var gs2 := Agregar(gs, t);
    assert gs2 == gs[j := gs[j].(productos := gs[j].productos + [ProductoDe(t)])];
    assert Claves(gs2) == Claves(gs);
  }

  /** The fold one row further along, with its keys still distinct. */
  lemma PrefijoSiguiente(ts: seq<Tarifa>, i: nat)
    requires i < |ts|
    ensures Agregar(Agrupar(ts[..i]), ts[i]) == Agrupar(ts[..i + 1])
    ensures Distintas(Claves(Agrupar(ts[..i + 1])))
  {
    assert ts[..i + 1][..i] == ts[..i];
    AgruparCorrecto(ts[..i + 1]);
    PrimerasAparicionesMiembros(Rutas(ts[..i + 1]));
  }

  /** `Object.values` of an accumulator that represents the groups. */
  lemma ValoresEnOrden(orden: seq<string>, acc: map<string, GrupoRuta>, gs: seq<GrupoRuta>)
    requires Representa(orden, acc, gs)
    ensures seq(|orden|, j requires 0 <= j < |orden| && orden[j] in acc => acc[orden[j]]) == gs
  {
  }

  /** `tarifas.reduce(...)` followed by `Object.values`. */
  method AgruparPorRuta(ts: seq<Tarifa>) returns (grupos: seq<GrupoRuta>)
    ensures grupos == Agrupar(ts)
  {
    var acc: map<string, GrupoRuta> := map[];
    var orden: seq<string> := [];
    var i := 0;
    while i < |ts|
      invariant 0 <= i <= |ts|
      invariant Representa(orden, acc, Agrupar(ts[..i]))
    {
      var t := ts[i];
      PrefijoSiguiente(ts, i);
      var ruta := RutaDe(t);
      if ruta !in acc {
        PasoRutaNueva(orden, acc, Agrupar(ts[..i]), t);
        acc := acc[ruta := GrupoRuta(t.origen, t.destino, [])];
        orden := orden + [ruta];
      } else {
        PasoRutaConocida(orden, acc, Agrupar(ts[..i]), t);
      }
      acc := acc[ruta := acc[ruta].(productos := acc[ruta].productos + [ProductoDe(t)])];
      i := i + 1;
    }
    assert ts[..i] == ts;
    ValoresEnOrden(orden, acc, Agrupar(ts));
    grupos := seq(|orden|, j requires 0 <= j < |orden| && orden[j] in acc => acc[orden[j]]);
  }

  // ---------------------------------------------------------------------
  // The service
  // ---------------------------------------------------------------------

  function Detalles(ts: seq<Tarifa>): (r: seq<TarifaDetalle>)
    ensures |r| == |ts|
    ensures forall i :: 0 <= i < |ts| ==>
      r[i] == TarifaDetalle(ts[i].id, ts[i].origen, ts[i].destino, ts[i].tipoProducto, ts[i].precioBase, ts[i].factorVolumetrico)
  {
    seq(|ts|, i requires 0 <= i < |ts| =>
      TarifaDetalle(ts[i].id, ts[i].origen, ts[i].destino, ts[i].tipoProducto, ts[i].precioBase, ts[i].factorVolumetrico))
  }

  /** The response for a list of rates: the count is the number of rows
      and equals the number of grouped products. */
  function ListadoDe(ts: seq<Tarifa>, fromCache: bool): (r: Listado)
    ensures r.totalTarifas == |ts| == |r.tarifasDetalle| == NumeroDeProductos(r.tarifas)
    ensures r.tarifas == Agrupar(ts) && r.fromCache == fromCache && r.moneda == MONEDA_TARIFAS
    ensures ts == [] ==> r.tarifas == []
  {
    ProductosSumanFilas(ts);
    Listado(|ts|, MONEDA_TARIFAS, DESCRIPCION, fromCache, Agrupar(ts), Detalles(ts))
  }

  /** What a `get` of the list key yields (an empty list is still a hit). */
  function TarifasLeidas(store: map<string, Entrada>, conectado: bool): Option<seq<Tarifa>> {
    if conectado && CLAVE_TARIFAS in store && store[CLAVE_TARIFAS].value.TarifasValue?
    then Some(store[CLAVE_TARIFAS].value.tarifas) else None
  }

  /** A coherent cache changes nothing but the `fromCache` flag. */
  lemma CacheTransparente(store: map<string, Entrada>, conectado: bool, tarifas: seq<Tarifa>)
    requires TarifasCoherentes(store, tarifas)
    ensures var leidas := TarifasLeidas(store, conectado);
      leidas.Some? ==> ListadoDe(leidas.value, true).(fromCache := false) == ListadoDe(TarifasActivas(tarifas), false)
  {
  }

  /** run. The cache commands do not fail here (a failing one behaves like
      a disconnected cache). */
  method Run(cache: RedisCacheService, repo: PostgresEnvioRepository) returns (r: Listado)
    modifies cache`store
    ensures var leidas := TarifasLeidas(old(cache.store), cache.IsConnected());
      r == ListadoDe(if leidas.Some? then leidas.value else repo.GetAllTarifas(), leidas.Some?)
      && cache.store == (if leidas.None? && cache.IsConnected()
                         then old(cache.store)[CLAVE_TARIFAS := Entrada(TarifasValue(repo.GetAllTarifas()), CACHE_TTL_TARIFAS)]
                         else old(cache.store))
    ensures old(Coherente(cache.store, repo)) ==> Coherente(cache.store, repo)
  {
    var cached := cache.Get(CLAVE_TARIFAS, false);
    var tarifas: seq<Tarifa>;
    if cached.Some? && cached.value.TarifasValue? {
      tarifas := cached.value.tarifas;
    } else {
      tarifas := repo.GetAllTarifas();
      if Coherente(cache.store, repo) {
        EscribirListaTarifas(cache.store, repo.envios, repo.unidades, repo.historial, repo.tarifas, CACHE_TTL_TARIFAS);
      }
      cache.Set(CLAVE_TARIFAS, TarifasValue(tarifas), Some(CACHE_TTL_TARIFAS), false);
    }
    var grupos := AgruparPorRuta(tarifas);
    ProductosSumanFilas(tarifas);
    r := Listado(|tarifas|, MONEDA_TARIFAS, DESCRIPCION, cached.Some? && cached.value.TarifasValue?, grupos, Detalles(tarifas));
  }
}
