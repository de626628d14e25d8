/**
 * Sequential semantics of the thread-safe connection `ConexionBDThreadSafe`
 * (prac07/eje05), one step per call. The connection is only ever opened, never
 * closed, and each successful query gets the post-increment value of the
 * counter as its number. A concurrent run reads as a sequence of these steps:
 * `conectar` tests and sets the flag under one lock; a query that saw the flag
 * set takes effect when it increments the counter under the other lock, and
 * the flag is still set then because nothing clears it; a query that saw it
 * clear takes effect at that read and changes nothing.
 */
module ConexionSegura {
  import opened Wrappers
  import Decimal

  datatype Estado = Estado(conectado: bool, consultas: nat)
  {
    /** Queries are only counted once the connection is open, and it is never closed. */
    predicate Valid() {
      consultas > 0 ==> conectado
    }

    /** Connect: succeeds only when not yet connected; afterwards the connection is open either way. */
    function Conectar(): (p: Paso)
      ensures p.ok <==> !conectado
      ensures p.estado == this.(conectado := true)
      ensures Valid() ==> p.estado.Valid()
    {
      if conectado then Paso(this, false) else Paso(this.(conectado := true), true)
    }

    /** A query: rejected without a connection; otherwise numbered with the incremented counter. */
    function EjecutarConsulta(): (c: Consulta)
      ensures c.numero.Some? <==> conectado
      ensures !conectado ==> c.estado == this
      ensures conectado ==> c.numero == Some(consultas + 1) && c.estado == this.(consultas := consultas + 1)
      ensures Valid() ==> c.estado.Valid()
    {
      if !conectado then Consulta(this, None)
      else Consulta(this.(consultas := consultas + 1), Some(consultas + 1))
    }
  }

  datatype Paso = Paso(estado: Estado, ok: bool)

  datatype Consulta = Consulta(estado: Estado, numero: Option<nat>)

  /** The state of a freshly created instance. */
  const Inicial := Estado(conectado := false, consultas := 0)

  const PrefijoResultado := "Resultado #"

  /** The text a successful query returns, for its number `n`. */
  function Resultado(n: nat): string {
    Decimal.Numerado(PrefijoResultado, n)
  }

  /** Different query numbers give different result texts. */
  lemma ResultadoInyectivo(m: nat, n: nat)
    requires Resultado(m) == Resultado(n)
    ensures m == n
  {
    Decimal.PrefixedNumberInjective(PrefijoResultado, m, n);
  }

  /** The calls, from any thread, in the order they took effect. */
  datatype Llamada = Conectar | Consultar | Estadisticas

  /**
   * What a run of calls leaves behind: the final state, the numbers the
   * successful queries received, in order, and how many `conectar` calls succeeded.
   */
  datatype Traza = Traza(estado: Estado, numeros: seq<nat>, conexiones: nat)

  function Ejecutar(e: Estado, ls: seq<Llamada>): Traza
    decreases |ls|
  {
    if ls == [] then Traza(e, [], 0)
    else
      var t :=
        match ls[0]
        case Conectar =>
          var p := e.Conectar();
          var r := Ejecutar(p.estado, ls[1..]);
          r.(conexiones := r.conexiones + if p.ok then 1 else 0)
        case Consultar =>
          var c := e.EjecutarConsulta();
          var r := Ejecutar(c.estado, ls[1..]);
          if c.numero.Some? then r.(numeros := [c.numero.value] + r.numeros) else r
        case Estadisticas =>
          Ejecutar(e, ls[1..]);
      t
  }

  /** `n` consecutive numbers starting at `desde`. */
  function Rango(desde: nat, n: nat): (r: seq<nat>)
    ensures |r| == n
    ensures forall i :: 0 <= i < n ==> r[i] == desde + i
  {
    seq(n, i requires 0 <= i < n => desde + i)
  }

  lemma RangoCons(desde: nat, n: nat)
    ensures [desde] + Rango(desde + 1, n) == Rango(desde, n + 1)
  {
  }

  /**
   * The numbers handed out by any run are exactly the counter values it passed
   * through, in increasing order, one per counted query: no gap, no duplicate.
   */
  lemma {:induction false} NumerosConsecutivos(e: Estado, ls: seq<Llamada>)
    ensures Ejecutar(e, ls).estado.consultas >= e.consultas
    ensures Ejecutar(e, ls).numeros == Rango(e.consultas + 1, Ejecutar(e, ls).estado.consultas - e.consultas)
    decreases |ls|
  {
    if ls != [] {
      match ls[0]
      case Conectar =>
        NumerosConsecutivos(e.Conectar().estado, ls[1..]);
      case Consultar =>
        var c := e.EjecutarConsulta();
        NumerosConsecutivos(c.estado, ls[1..]);
        if c.numero.Some? {
          RangoCons(e.consultas + 1, Ejecutar(e, ls).estado.consultas - e.consultas - 1);
        }
      case Estadisticas =>
        NumerosConsecutivos(e, ls[1..]);
    }
  }

  /** Once open, the connection stays open; a valid state stays valid. */
  lemma {:induction false} ConexionPermanece(e: Estado, ls: seq<Llamada>)
    ensures e.conectado ==> Ejecutar(e, ls).estado.conectado
    ensures e.Valid() ==> Ejecutar(e, ls).estado.Valid()
    decreases |ls|
  {
    if ls != [] {
      match ls[0]
      case Conectar => ConexionPermanece(e.Conectar().estado, ls[1..]);
      case Consultar => ConexionPermanece(e.EjecutarConsulta().estado, ls[1..]);
      case Estadisticas => ConexionPermanece(e, ls[1..]);
    }
  }

  /**
   * At most one `conectar` ever succeeds, and none does once the connection is
   * open; starting closed, a run with some `conectar` has exactly one success.
   */
  lemma {:induction false} UnaSolaConexion(e: Estado, ls: seq<Llamada>)
    ensures Ejecutar(e, ls).conexiones <= 1
    ensures e.conectado ==> Ejecutar(e, ls).conexiones == 0
    ensures Ejecutar(e, ls).conexiones == 1 ==> !e.conectado && Ejecutar(e, ls).estado.conectado
    ensures !e.conectado && Conectar in ls ==> Ejecutar(e, ls).conexiones == 1
    decreases |ls|
  {
    if ls != [] {
      if ls[0] != Conectar && Conectar in ls {
        var i :| 0 <= i < |ls| && ls[i] == Conectar;
        assert ls[1..][i - 1] == Conectar;
      }
      match ls[0]
      case Conectar =>
        UnaSolaConexion(e.Conectar().estado, ls[1..]);
        ConexionPermanece(e.Conectar().estado, ls[1..]);
      case Consultar => UnaSolaConexion(e.EjecutarConsulta().estado, ls[1..]);
      case Estadisticas => UnaSolaConexion(e, ls[1..]);
    }
  }

  /** `n` queries on an open connection all succeed, numbered after the current count. */
  lemma {:induction false} ConsultasConectado(e: Estado, n: nat)
    requires e.conectado
    ensures Ejecutar(e, seq(n, _ => Consultar)) == Traza(e.(consultas := e.consultas + n), Rango(e.consultas + 1, n), 0)
    decreases n
  {
    if n > 0 {
      var ls := seq(n, _ => Consultar);
      assert ls[0] == Consultar;
      assert ls[1..] == seq(n - 1, _ => Consultar);
      ConsultasConectado(e.(consultas := e.consultas + 1), n - 1);
      RangoCons(e.consultas + 1, n - 1);
    }
  }

  /**
   * From a fresh instance, the numbers handed out are 1..N in order, where N is
   * what the statistics report at the end, whatever the calls.
   */
  lemma DesdeInicial(ls: seq<Llamada>)
    ensures var t := Ejecutar(Inicial, ls);
      && t.numeros == Rango(1, t.estado.consultas)
      && (forall i, j :: 0 <= i < j < |t.numeros| ==> t.numeros[i] < t.numeros[j])
      && (forall k :: 1 <= k <= t.estado.consultas <==> k in t.numeros)
  {
    NumerosConsecutivos(Inicial, ls);
    var t := Ejecutar(Inicial, ls);
    forall k | 1 <= k <= t.estado.consultas
      ensures k in t.numeros
    {
      assert t.numeros[k - 1] == k;
    }
  }
}
