/**
 * The C++ simulated database connection of prac07/eje03/ConexionBD.h and the
 * static pointer that holds its single instance. The simulated latency
 * (`sleep_for`) and the console output are not modelled.
 */
module ConexionBDCpp {
  import opened Conexion

  class ConexionBD {
    var conectado: bool
    var host: string
    var puerto: int
    var baseDatos: string
    var usuario: string
    var consultasEjecutadas: nat

    function Modelo(): Estado
      reads this
    {
      Estado(conectado, host, puerto, baseDatos, usuario, consultasEjecutadas)
    }

    /** The constructor (private in C++): disconnected, localhost:5432, mi_aplicacion, admin, no queries. */
    constructor ()
      ensures Modelo() == Inicial
    {
      conectado := false;
      host := "localhost";
      puerto := 5432;
      baseDatos := "mi_aplicacion";
      usuario := "admin";
      consultasEjecutadas := 0;
    }

    method Conectar() returns (ok: bool)
      modifies this
      ensures Paso(Modelo(), ok) == old(Modelo()).Conectar()
    {
      if conectado {
        return false;
      }
      conectado := true;
      return true;
    }

    method Desconectar() returns (ok: bool)
      modifies this
      ensures Paso(Modelo(), ok) == old(Modelo()).Desconectar()
    {
      if !conectado {
        return false;
      }
      conectado := false;
      return true;
    }

    /** The text of the query is only displayed, so it has no effect here. */
    method EjecutarConsulta(consulta: string) returns (r: string)
      modifies this
      ensures Modelo() == old(Modelo()).EjecutarConsulta().estado
      ensures r == "" <==> !old(conectado)
      ensures old(conectado) ==> r == Resultado(consultasEjecutadas) && consultasEjecutadas == old(consultasEjecutadas) + 1
    {
      if !conectado {
        return "";
      }
      consultasEjecutadas := consultasEjecutadas + 1;
      return Resultado(consultasEjecutadas);
    }

    /** The defaults of the C++ signature mean "leave this field as it is". */
    method Configurar(nuevoHost: string := "", nuevoPuerto: int := 0, nuevaBD: string := "", nuevoUsuario: string := "")
      returns (ok: bool)
      modifies this
      ensures Paso(Modelo(), ok) == old(Modelo()).Configurar(nuevoHost, nuevoPuerto, nuevaBD, nuevoUsuario)
    {
      if conectado {
        return false;
      }
      if nuevoHost != "" { host := nuevoHost; }
      if nuevoPuerto > 0 { puerto := nuevoPuerto; }
      if nuevaBD != "" { baseDatos := nuevaBD; }
      if nuevoUsuario != "" { usuario := nuevoUsuario; }
      return true;
    }
  }

  /** The static pointer `ConexionBD::instancia`, null until first use. */
  class Instancia {
    var instancia: ConexionBD?

    constructor ()
      ensures instancia == null
    {
      instancia := null;
    }

    /** Creates the connection on the first call only; every call returns the one instance, untouched. */
    method ObtenerInstancia() returns (c: ConexionBD)
      modifies this
      ensures instancia == c
      ensures old(instancia) == null ==> fresh(c) && c.Modelo() == Inicial
      ensures old(instancia) != null ==> c == old(instancia) && c.Modelo() == old(c.Modelo())
    {
      if instancia == null {
        instancia := new ConexionBD();
      }
      c := instancia;
    }

    method DestruirInstancia()
      modifies this
      ensures instancia == null
    {
      if instancia != null {
        instancia := null;
      }
    }
  }

  /** After a teardown the next request builds a fresh, disconnected connection with the defaults. */
  method DestruirYObtener(g: Instancia) returns (c: ConexionBD)
    modifies g
    ensures fresh(c) && g.instancia == c
    ensures c.Modelo() == Inicial
  {
    g.DestruirInstancia();
    c := g.ObtenerInstancia();
  }
}
