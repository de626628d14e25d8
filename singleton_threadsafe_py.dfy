/**
 * The Python thread-safe connection `ConexionBDThreadSafe` of
 * prac07/eje05/singleton_threadsafe.py, read sequentially: each call is one
 * step of `ConexionSegura`. A query tests `_conectado` without a lock and only
 * later increments the counter under `_lock_contador`; it still acts as one
 * step because the flag never goes back to false
 * (`ConexionSegura.ConexionPermanece`). The locks, the thread names and the
 * simulated latency are not modelled.
 */
module ConexionBDThreadSafePy {
  import opened Wrappers
  import opened ConexionSegura

  class ConexionBDThreadSafe {
    var inicializado: bool
    var conectado: bool
    var consultasEjecutadas: nat

    function Modelo(): Estado
      reads this
    {
      Estado(conectado, consultasEjecutadas)
    }

    /** `object.__new__` followed by `_inicializado = False`. */
    constructor Nuevo()
      ensures !inicializado
    {
      inicializado := false;
    }

    /** `__init__`: checked twice, the second time under the class lock; sets the fields once. */
    method Init()
      modifies this
      ensures inicializado
      ensures !old(inicializado) ==> Modelo() == Inicial
      ensures old(inicializado) ==> Modelo() == old(Modelo())
    {
      // The source tests the flag again under `_lock`; run sequentially,
      // that second test always agrees with this one.
      if !inicializado {
        inicializado := true;
        conectado := false;
        consultasEjecutadas := 0;
      }
    }

    /** Under `_lock_conexion`. */
    method Conectar() returns (ok: bool)
      requires inicializado
      modifies this
      ensures inicializado
      ensures Paso(Modelo(), ok) == old(Modelo()).Conectar()
    {
      if conectado {
        return false;
      }
      conectado := true;
      return true;
    }

    /** The counter is incremented and read back under `_lock_contador`, as one step. */
    method EjecutarConsulta(consulta: string) returns (r: Option<string>)
      requires inicializado
      modifies this
      ensures inicializado
      ensures Modelo() == old(Modelo()).EjecutarConsulta().estado
      ensures r == None <==> !old(conectado)
      ensures old(conectado) ==> r == Some(Resultado(consultasEjecutadas)) && consultasEjecutadas == old(consultasEjecutadas) + 1
    {
      if !conectado {
        return None;
      }
      consultasEjecutadas := consultasEjecutadas + 1;
      var numConsulta := consultasEjecutadas;
      return Some(Resultado(numConsulta));
    }

    /** The dictionary `{'conectado': ..., 'consultas': ...}` as a value. */
    method GetEstadisticas() returns (s: Estado)
      requires inicializado
      ensures s.conectado == conectado && s.consultas == consultasEjecutadas
      ensures Modelo().Valid() ==> s.Valid()
    {
      return Estado(conectado := conectado, consultas := consultasEjecutadas);
    }
  }

  /** The class attribute `ConexionBDThreadSafe._instancia`, `None` until the first call. */
  class Instancia {
    var instancia: ConexionBDThreadSafe?

    ghost predicate Valid()
      reads this, instancia
    {
      instancia != null ==> instancia.inicializado
    }

    constructor ()
      ensures instancia == null && Valid()
    {
      instancia := null;
    }

    /**
     * The call `ConexionBDThreadSafe()`: `__new__` creates the object at most
     * once (double-checked), then `__init__` runs; the fields are set only once.
     */
    method Llamar() returns (c: ConexionBDThreadSafe)
      requires Valid()
      modifies this, instancia
      ensures Valid() && instancia == c && c.inicializado
      ensures old(instancia) == null ==> fresh(c) && c.Modelo() == Inicial
      ensures old(instancia) != null ==> c == old(instancia) && c.Modelo() == old(c.Modelo())
    {
      // The source tests `_instancia` again under `_lock`; run sequentially,
      // that second test always agrees with this one.
      if instancia == null {
        instancia := new ConexionBDThreadSafe.Nuevo();
      }
      c := instancia;
      c.Init();
    }
  }
}
