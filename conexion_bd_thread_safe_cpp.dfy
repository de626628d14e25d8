/**
 * The C++ thread-safe connection of prac07/eje05/ConexionBDThreadSafe.h, read
 * sequentially: each call is one step of `ConexionSegura`. A query tests
 * `conectado` without a lock and only later increments the counter under
 * `mutexContador`; it still acts as one step because the flag never goes back
 * to false (`ConexionSegura.ConexionPermanece`). The mutexes and the simulated
 * latency are not modelled.
 */
module ConexionBDThreadSafeCpp {
  import opened ConexionSegura

  class ConexionBDThreadSafe {
    var conectado: bool
    var consultasEjecutadas: nat
    var inicializado: bool

    function Modelo(): Estado
      reads this
    {
      Estado(conectado, consultasEjecutadas)
    }

    /** The constructor (private in C++): not connected, no queries, not yet marked initialised. */
    constructor ()
      ensures Modelo() == Inicial && !inicializado
    {
      conectado := false;
      consultasEjecutadas := 0;
      inicializado := false;
    }

    /** Under `mutexConexion`. */
    method Conectar() returns (ok: bool)
      modifies this
      ensures inicializado == old(inicializado)
      ensures Paso(Modelo(), ok) == old(Modelo()).Conectar()
    {
      if conectado {
        return false;
      }
      conectado := true;
      return true;
    }

    /** The counter is incremented and read back under `mutexContador`, as one step. */
    method EjecutarConsulta(consulta: string) returns (r: string)
      modifies this
      ensures inicializado == old(inicializado)
      ensures Modelo() == old(Modelo()).EjecutarConsulta().estado
      ensures r == "" <==> !old(conectado)
      ensures old(conectado) ==> r == Resultado(consultasEjecutadas) && consultasEjecutadas == old(consultasEjecutadas) + 1
    {
      if !conectado {
        return "";
      }
      var numConsulta: nat;
      consultasEjecutadas := consultasEjecutadas + 1;
      numConsulta := consultasEjecutadas;
      return Resultado(numConsulta);
    }

    /** Under `mutexContador`: the number of queries run so far. */
    method ObtenerEstadisticas() returns (n: int)
      ensures n == Modelo().consultas
      ensures Modelo().Valid() && n > 0 ==> conectado
    {
      return consultasEjecutadas;
    }
  }

  /** The static pointer `ConexionBDThreadSafe::instancia`, guarded by `mutexInstancia`. */
  class Instancia {
    var instancia: ConexionBDThreadSafe?

    /** A published instance has been marked initialised. */
    ghost predicate Valid()
      reads this, instancia
    {
      instancia != null ==> instancia.inicializado
    }

    constructor ()
      ensures instancia == null && Valid()
    {
      instancia := null;
    }

    /** Double-checked creation: the instance is built at most once and always returned. */
    method ObtenerInstancia() returns (c: ConexionBDThreadSafe)
      requires Valid()
      modifies this
      ensures Valid() && instancia == c && c.inicializado
      ensures old(instancia) == null ==> fresh(c) && c.Modelo() == Inicial
      ensures old(instancia) != null ==> c == old(instancia) && c.Modelo() == old(c.Modelo())
    {
      // The source tests the pointer again while holding `mutexInstancia`;
      // run sequentially, that second test always agrees with this one.
      if instancia == null {
        var nueva := new ConexionBDThreadSafe();
        nueva.inicializado := true;
        instancia := nueva;
      }
      c := instancia;
    }

    method DestruirInstancia()
      modifies this
      ensures instancia == null && Valid()
    {
      if instancia != null {
        instancia := null;
      }
    }
  }

  /** After a teardown the next request builds a fresh instance: not connected, no queries. */
  method DestruirYObtener(g: Instancia) returns (c: ConexionBDThreadSafe)
    modifies g
    ensures fresh(c) && g.instancia == c
    ensures c.Modelo() == Inicial
  {
    g.DestruirInstancia();
    c := g.ObtenerInstancia();
  }
}
