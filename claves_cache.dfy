/** The cache keys the services use, and when two of them can be equal. */
module ClavesCache {
  import opened EnvioEntity

  /** `tarifa:${origen}:${destino}:${tipoProducto}` (CotizarEnvioAppService). */
  function TarifaCacheKey(origen: string, destino: string, tipoProducto: string): string {
    "tarifa:" + origen + ":" + destino + ":" + tipoProducto
  }

  /** `envio:${numeroGuia}` (ConsultarEnvioAppService and
      ActualizarEstadoAppService build the same key). */
  function EnvioCacheKey(numeroGuia: string): string {
    "envio:" + numeroGuia
  }

  /** The single key of the rate list (ConsultarTarifasAppService). */
  const CLAVE_TARIFAS: string := "tarifas:all"

  predicate SinDosPuntos(s: string) {
    forall i :: 0 <= i < |s| ==> s[i] != ':'
  }

  /** Splitting at the first occurrence of a separator is unique. */
  lemma SepararEn(c: char, a1: string, r1: string, a2: string, r2: string)
    requires forall i :: 0 <= i < |a1| ==> a1[i] != c
    requires forall i :: 0 <= i < |a2| ==> a2[i] != c
    requires a1 + [c] + r1 == a2 + [c] + r2
    ensures a1 == a2 && r1 == r2
  {
    var s := a1 + [c] + r1;
    if |a1| < |a2| {
      SeparadorEn(a1, c, r1);
      assert false;
    } else if |a2| < |a1| {
      SeparadorEn(a2, c, r2);
      assert false;
    } else {
      assert a1 == s[..|a1|] == a2;
      assert r1 == s[|a1| + 1..] == r2;
    }
  }

  lemma SeparadorEn(a: string, c: char, r: string)
    ensures (a + [c] + r)[|a|] == c
  {
  }

  /** With origin and destination free of ':' the key determines the
      route and the product. */
  lemma TarifaCacheKeyInyectiva(o1: string, d1: string, t1: string, o2: string, d2: string, t2: string)
    requires SinDosPuntos(o1) && SinDosPuntos(d1) && SinDosPuntos(o2) && SinDosPuntos(d2)
    requires TarifaCacheKey(o1, d1, t1) == TarifaCacheKey(o2, d2, t2)
    ensures o1 == o2 && d1 == d2 && t1 == t2
  {
    var p := "tarifa:";
    var k1, k2 := TarifaCacheKey(o1, d1, t1), TarifaCacheKey(o2, d2, t2);
    assert k1 == p + (o1 + [':'] + (d1 + [':'] + t1));
    assert k2 == p + (o2 + [':'] + (d2 + [':'] + t2));
    assert k1[|p|..] == o1 + [':'] + (d1 + [':'] + t1);
    assert k2[|p|..] == o2 + [':'] + (d2 + [':'] + t2);
    SepararEn(':', o1, d1 + [':'] + t1, o2, d2 + [':'] + t2);
    SepararEn(':', d1, t1, d2, t2);
  }

  /** A ':' inside a name lets two different routes share one key. */
  lemma ColisionDeClaves()
    ensures TarifaCacheKey("A:B", "C", "PAQUETE") == TarifaCacheKey("A", "B:C", "PAQUETE")
  {
  }

  lemma EnvioCacheKeyInyectiva(g1: string, g2: string)
    requires EnvioCacheKey(g1) == EnvioCacheKey(g2)
    ensures g1 == g2
  {
    assert g1 == EnvioCacheKey(g1)[6..];
  }

  /** The three kinds of key never meet. */
  lemma ClavesDisjuntas(o: string, d: string, t: string, g: string)
    ensures TarifaCacheKey(o, d, t) != EnvioCacheKey(g)
    ensures TarifaCacheKey(o, d, t) != CLAVE_TARIFAS
    ensures EnvioCacheKey(g) != CLAVE_TARIFAS
  {
    assert TarifaCacheKey(o, d, t)[0] == 't' && EnvioCacheKey(g)[0] == 'e';
    assert TarifaCacheKey(o, d, t)[6] == ':' && CLAVE_TARIFAS[6] == 's';
  }
}
