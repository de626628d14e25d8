/**
 * The Python simulated database connection of prac07/eje03/conexion_bd.py.
 * `__new__` keeps the single object in `_instancia`; `__init__` sets the
 * fields on the first call only. Failures of `ejecutar_consulta` return
 * `None`, and `configurar` tests its arguments for truthiness. The connection
 * timestamp `_tiempo_conexion` is not modelled.
 */
module ConexionBDPy {
  import opened Wrappers
  import opened Conexion

  class ConexionBD {
    var inicializado: bool
    var conectado: bool
    var host: string
    var puerto: int
    var baseDatos: string
    var usuario: string
    var consultasEjecutadas: nat

    function Modelo(): Estado
      reads this
    {
      Estado(conectado, host, puerto, baseDatos, usuario, consultasEjecutadas)
    }

    /** `object.__new__` followed by `_inicializado = False`. */
    constructor Nuevo()
      ensures !inicializado
    {
      inicializado := false;
    }

    /** `__init__`: the defaults on the first call, nothing afterwards. */
    method Init()
      modifies this
      ensures inicializado
      ensures !old(inicializado) ==> Modelo() == Inicial
      ensures old(inicializado) ==> Modelo() == old(Modelo())
    {
      if !inicializado {
        inicializado := true;
        conectado := false;
        host := "localhost";
        puerto := 5432;
        baseDatos := "mi_aplicacion";
        usuario := "admin";
        consultasEjecutadas := 0;
      }
    }

    method Conectar() returns (ok: bool)
      requires inicializado
      modifies this
      ensures inicializado
      ensures Paso(Modelo(), ok) == old(Modelo()).Conectar()
    {
      if conectado {
        return false;
      }
      conectado := true;
      return true;
    }

    method Desconectar() returns (ok: bool)
      requires inicializado
      modifies this
      ensures inicializado
      ensures Paso(Modelo(), ok) == old(Modelo()).Desconectar()
    {
      if !conectado {
        return false;
      }
      conectado := false;
      return true;
    }

    method EjecutarConsulta(consulta: string) returns (r: Option<string>)
      requires inicializado
      modifies this
      ensures inicializado
      ensures Modelo() == old(Modelo()).EjecutarConsulta().estado
      ensures r == None <==> !old(conectado)
      ensures old(conectado) ==> r == Some(Resultado(consultasEjecutadas)) && consultasEjecutadas == old(consultasEjecutadas) + 1
    {
      if !conectado {
        return None;
      }
      consultasEjecutadas := consultasEjecutadas + 1;
      return Some(Resultado(consultasEjecutadas));
    }

    /** Every argument defaults to `None`, which leaves its field as it is. */
    method Configurar(host': Option<string> := None, puerto': Option<int> := None,
                      baseDatos': Option<string> := None, usuario': Option<string> := None)
      returns (ok: bool)
      requires inicializado
      modifies this
      ensures inicializado
      ensures Paso(Modelo(), ok) == old(Modelo()).ConfigurarPy(host', puerto', baseDatos', usuario')
    {
      if conectado {
        return false;
      }
      if Truthy(host') { host := host'.value; }
      if puerto'.Some? && puerto'.value != 0 { puerto := puerto'.value; }
      if Truthy(baseDatos') { baseDatos := baseDatos'.value; }
      if Truthy(usuario') { usuario := usuario'.value; }
      return true;
    }
  }

  /** The class attribute `ConexionBD._instancia`, `None` until the first call. */
  class Instancia {
    var instancia: ConexionBD?

    ghost predicate Valid()
      reads this, instancia
    {
      instancia != null ==> instancia.inicializado
    }

    constructor ()
      ensures instancia == null && Valid()
    {
      instancia := null;
    }

    /** The call `ConexionBD()`: one object for every call, set up by the first call only. */
    method Llamar() returns (c: ConexionBD)
      requires Valid()
      modifies this, instancia
      ensures Valid() && instancia == c && c.inicializado
      ensures old(instancia) == null ==> fresh(c) && c.Modelo() == Inicial
      ensures old(instancia) != null ==> c == old(instancia) && c.Modelo() == old(c.Modelo())
    {
      if instancia == null {
        instancia := new ConexionBD.Nuevo();
      }
      c := instancia;
      c.Init();
    }
  }
}
