/** validateEnvs: report the configuration variables that carry no value.
    The loop's second test can never fail, so nothing is ever reported as
    undefined and the check never throws. */
module ValidateEnvs {
  import opened Wrappers
  import opened Text

  /** A value of the configuration record. */
  datatype ValorEnv = Texto(s: string) | Numero(n: int) | Booleano(b: bool) | Indefinido | Nulo

  /** `''`, `undefined` or `null`. */
  predicate SinValor(v: ValorEnv) {
    v == Texto("") || v.Indefinido? || v.Nulo?
  }

  /** `process.env[key]` is truthy. */
  predicate Definida(entorno: map<string, string>, key: string) {
    key in entorno && entorno[key] != ""
  }

  /** The keys without a value, in the record's order. */
  function SinInformacion(env: seq<(string, ValorEnv)>): (r: seq<string>)
    ensures |r| <= |env|
    ensures forall k :: k in r ==> exists i :: 0 <= i < |env| && env[i].0 == k && SinValor(env[i].1)
  {
    if env == [] then []
    else SinInformacion(env[..|env| - 1]) + (if SinValor(env[|env| - 1].1) then [env[|env| - 1].0] else [])
  }

  const AVISO: string := "Las siguientes variables no tienen información, es posible que el programa no funcione de forma correcta:\n"
  const ERROR_INDEFINIDAS: string := "Las siguientes variables no están definidas en los ENV:\n"

  /** validateEnvs over the record's entries in iteration order and the
      process environment. The result is the `console.info` line, if any,
      or the error it would throw. */
  method Validar(env: seq<(string, ValorEnv)>, entorno: map<string, string>)
    returns (sinInformacion: seq<string>, indefinidas: seq<string>, r: Result<Option<string>, string>)
    ensures sinInformacion == SinInformacion(env)
    ensures indefinidas == []
    ensures r.Success?
    ensures r.value.Some? <==> |sinInformacion| > 0
    ensures r.value.Some? ==> r.value.value == AVISO + Join(sinInformacion, " \n") + "\n"
  {
    sinInformacion := [];
    indefinidas := [];
    var i := 0;
    while i < |env|
      invariant 0 <= i <= |env|
      invariant sinInformacion == SinInformacion(env[..i])
      invariant indefinidas == []
    {
      var key := env[i].0;
      var valor := env[i].1;
      assert env[..i + 1][..i] == env[..i];
      i := i + 1;
      if SinValor(valor) {
        sinInformacion := sinInformacion + [key];
        continue;
      }
      if valor != Texto("") {
        continue;
      }
      if !Definida(entorno, key) {
        indefinidas := indefinidas + [key];
      }
    }
    assert env[..i] == env;
    var aviso: Option<string> := None;
    if |sinInformacion| > 0 {
      aviso := Some(AVISO + Join(sinInformacion, " \n") + "\n");
    }
    if |indefinidas| > 0 {
      return sinInformacion, indefinidas, Failure(ERROR_INDEFINIDAS + Join(indefinidas, " \n") + "\n");
    }
    r := Success(aviso);
  }

  /** `sinInformacion` has one entry per key without a value in the
      record. */
  lemma {:induction false} SinInformacionCuenta(env: seq<(string, ValorEnv)>)
    ensures |SinInformacion(env)| == |set i | 0 <= i < |env| && SinValor(env[i].1)|
  {
    if env != [] {
      var n := |env| - 1;
      var init := env[..n];
      SinInformacionCuenta(init);
      var s0 := set i | 0 <= i < n && SinValor(init[i].1);
      var s1 := set i | 0 <= i < |env| && SinValor(env[i].1);
      assert s1 == s0 + (if SinValor(env[n].1) then {n} else {});
    }
  }

  /** Every key without a value is listed. */
  lemma {:induction false} SinInformacionCompleta(env: seq<(string, ValorEnv)>, i: nat)
    requires i < |env| && SinValor(env[i].1)
    ensures env[i].0 in SinInformacion(env)
  {
    var n := |env| - 1;
    var init := env[..n];
    var cola := if SinValor(env[n].1) then [env[n].0] else [];
    assert SinInformacion(env) == SinInformacion(init) + cola;
    if i < n {
      assert init[i] == env[i];
      SinInformacionCompleta(init, i);
    } else {
      assert cola == [env[i].0];
    }
  }
}
