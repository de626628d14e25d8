/**
 * State of the simulated database connection `ConexionBD` (prac07/eje03), as
 * a value, with its transitions. The C++ header and the Python mirror agree on
 * everything except the guards of `configurar`, which appear here as
 * Configurar (C++) and ConfigurarPy (Python).
 */
module Conexion {
  import opened Wrappers
  import Decimal

  datatype Estado = Estado(
    conectado: bool,
    host: string,
    puerto: int,
    baseDatos: string,
    usuario: string,
    consultas: nat)
  {
    /** Connect: refused when already connected. */
    function Conectar(): (p: Paso)
      ensures p.ok <==> !conectado
      ensures p.estado.conectado
      ensures p.estado == this.(conectado := true)
    {
      if conectado then Paso(this, false) else Paso(this.(conectado := true), true)
    }

    /** Disconnect: refused when not connected; the query count is kept. */
    function Desconectar(): (p: Paso)
      ensures p.ok <==> conectado
      ensures !p.estado.conectado
      ensures p.estado == this.(conectado := false)
    {
      if !conectado then Paso(this, false) else Paso(this.(conectado := false), true)
    }

    /** Run a query: only while connected, and the count goes up by exactly one. */
    function EjecutarConsulta(): (c: Consulta)
      ensures c.numero.Some? <==> conectado
      ensures !conectado ==> c.estado == this
      ensures conectado ==> c.numero == Some(consultas + 1) && c.estado == this.(consultas := c.numero.value)
      ensures c.estado.conectado == conectado
    {
      if !conectado then Consulta(this, None)
      else Consulta(this.(consultas := consultas + 1), Some(consultas + 1))
    }

    /**
     * C++ `configurar`: refused while connected; otherwise a field is
     * overwritten exactly when its argument is a non-empty string, or a port
     * greater than 0.
     */
    function Configurar(nuevoHost: string, nuevoPuerto: int, nuevaBD: string, nuevoUsuario: string): (p: Paso)
      ensures p.ok <==> !conectado
      ensures !p.ok ==> p.estado == this
      ensures p.estado.conectado == conectado && p.estado.consultas == consultas
      ensures p.ok && nuevoHost != "" ==> p.estado.host == nuevoHost
      ensures p.ok && nuevoHost == "" ==> p.estado.host == host
      ensures p.ok && nuevoPuerto > 0 ==> p.estado.puerto == nuevoPuerto
      ensures p.ok && nuevoPuerto <= 0 ==> p.estado.puerto == puerto
      ensures p.ok && nuevaBD != "" ==> p.estado.baseDatos == nuevaBD
      ensures p.ok && nuevaBD == "" ==> p.estado.baseDatos == baseDatos
      ensures p.ok && nuevoUsuario != "" ==> p.estado.usuario == nuevoUsuario
      ensures p.ok && nuevoUsuario == "" ==> p.estado.usuario == usuario
    {
      if conectado then Paso(this, false)
      else
        Paso(this.(
          host := if nuevoHost != "" then nuevoHost else host,
          puerto := if nuevoPuerto > 0 then nuevoPuerto else puerto,
          baseDatos := if nuevaBD != "" then nuevaBD else baseDatos,
          usuario := if nuevoUsuario != "" then nuevoUsuario else usuario), true)
    }

    /**
     * Python `configurar`: refused while connected; otherwise a field is
     * overwritten exactly when its argument is truthy, that is given and
     * neither "" nor 0. A negative port is truthy and so is taken.
     */
    function ConfigurarPy(host': Option<string>, puerto': Option<int>, baseDatos': Option<string>, usuario': Option<string>): (p: Paso)
      ensures p.ok <==> !conectado
      ensures !p.ok ==> p.estado == this
      ensures p.estado.conectado == conectado && p.estado.consultas == consultas
      ensures p.ok && Truthy(host') ==> p.estado.host == host'.value
      ensures p.ok && !Truthy(host') ==> p.estado.host == host
      ensures p.ok && puerto'.Some? && puerto'.value != 0 ==> p.estado.puerto == puerto'.value
      ensures p.ok && (puerto' == None || puerto' == Some(0)) ==> p.estado.puerto == puerto
      ensures p.ok && Truthy(baseDatos') ==> p.estado.baseDatos == baseDatos'.value
      ensures p.ok && !Truthy(baseDatos') ==> p.estado.baseDatos == baseDatos
      ensures p.ok && Truthy(usuario') ==> p.estado.usuario == usuario'.value
      ensures p.ok && !Truthy(usuario') ==> p.estado.usuario == usuario
    {
      if conectado then Paso(this, false)
      else
        Paso(this.(
          host := if Truthy(host') then host'.value else host,
          puerto := if puerto'.Some? && puerto'.value != 0 then puerto'.value else puerto,
          baseDatos := if Truthy(baseDatos') then baseDatos'.value else baseDatos,
          usuario := if Truthy(usuario') then usuario'.value else usuario), true)
    }
  }

  /** Python truthiness of an optional string argument. */
  predicate Truthy(s: Option<string>) {
    s.Some? && s.value != ""
  }

  /** State after a call and the flag it returns. */
  datatype Paso = Paso(estado: Estado, ok: bool)

  /** State after a query and the number of that query, if it ran. */
  datatype Consulta = Consulta(estado: Estado, numero: Option<nat>)

  /** The state of a freshly created instance. */
  const Inicial := Estado(conectado := false, host := "localhost", puerto := 5432,
                          baseDatos := "mi_aplicacion", usuario := "admin", consultas := 0)

  const PrefijoResultado := "Resultado de la consulta #"

  /** The text a successful query returns, for its number `n`. */
  function Resultado(n: nat): string {
    Decimal.Numerado(PrefijoResultado, n)
  }

  /** Different query numbers give different result texts. */
  lemma ResultadoInyectivo(m: nat, n: nat)
    requires Resultado(m) == Resultado(n)
    ensures m == n
  {
    Decimal.PrefixedNumberInjective(PrefijoResultado, m, n);
  }

  /** Configuring twice with the same arguments is configuring once (C++). */
  lemma ConfigurarIdempotente(e: Estado, h: string, p: int, b: string, u: string)
    ensures e.Configurar(h, p, b, u).estado.Configurar(h, p, b, u).estado == e.Configurar(h, p, b, u).estado
  {
  }

  /** With no argument given, configuring changes nothing (C++ defaults "", 0, "", ""). */
  lemma ConfigurarSinArgumentos(e: Estado)
    ensures e.Configurar("", 0, "", "").estado == e
  {
  }

  /** The two `configurar` guards agree on every port that is not negative ... */
  lemma ConfigurarPyComoCpp(e: Estado, h: string, p: int, b: string, u: string)
    requires p >= 0
    ensures e.ConfigurarPy(Some(h), Some(p), Some(b), Some(u)) == e.Configurar(h, p, b, u)
  {
  }

  /** ... and differ on a negative one: Python takes it, C++ keeps the old port. */
  lemma PuertoNegativo(e: Estado, p: int)
    requires !e.conectado && p < 0
    ensures e.ConfigurarPy(None, Some(p), None, None).estado.puerto == p
    ensures e.Configurar("", p, "", "").estado.puerto == e.puerto
  {
  }

  /** The calls a client can make on the connection. */
  datatype Operacion =
    | Conectar
    | Desconectar
    | Consultar
    | Configurar(host: string, puerto: int, baseDatos: string, usuario: string)

  function Aplicar(e: Estado, op: Operacion): (r: Estado)
    ensures r.consultas == e.consultas || (op.Consultar? && e.conectado && r.consultas == e.consultas + 1)
  {
    match op
    case Conectar => e.Conectar().estado
    case Desconectar => e.Desconectar().estado
    case Consultar => e.EjecutarConsulta().estado
    case Configurar(h, p, b, u) => e.Configurar(h, p, b, u).estado
  }

  function Ejecutar(e: Estado, ops: seq<Operacion>): Estado
    decreases |ops|
  {
    if ops == [] then e else Ejecutar(Aplicar(e, ops[0]), ops[1..])
  }

  /** Number of calls in `ops` that are queries. */
  function NumConsultas(ops: seq<Operacion>): nat
    decreases |ops|
  {
    if ops == [] then 0 else (if ops[0].Consultar? then 1 else 0) + NumConsultas(ops[1..])
  }

  /** The counter only grows, and by at most one per query call. */
  lemma {:induction false} ContadorAcotado(e: Estado, ops: seq<Operacion>)
    ensures e.consultas <= Ejecutar(e, ops).consultas <= e.consultas + NumConsultas(ops)
    decreases |ops|
  {
    if ops != [] {
      ContadorAcotado(Aplicar(e, ops[0]), ops[1..]);
    }
  }

  /** While connected and with only queries, every call counts. */
  lemma {:induction false} SoloConsultasConectado(e: Estado, ops: seq<Operacion>)
    requires e.conectado
    requires forall i :: 0 <= i < |ops| ==> ops[i].Consultar?
    ensures Ejecutar(e, ops) == e.(consultas := e.consultas + |ops|)
    decreases |ops|
  {
    if ops != [] {
      SoloConsultasConectado(Aplicar(e, ops[0]), ops[1..]);
    }
  }
}
