/** The record-level logic of the skill's store (entrega5/lambda/bd.js). Each DynamoDB
    table becomes a field of `Db`: the session table a map from its composite key
    (userID, sesionID) to the stored document, and the user, game and result tables
    sequences in scan order. A `put` of an item under a fresh uuidv4 key appends it; a
    `get` is a map lookup; a `query`/`scan` with a condition is a filter of the
    sequence. Identifiers from uuidv4 and `new Date().toISOString()` timestamps are
    parameters. */
module Bd5 {
  import opened Js

  /** The attributes the skill stores in session and result documents. */
  datatype Campo =
    | UserID | SesionID | TipoUsuario | JuegoID
    | PuzleActual | PuzleIniciado | PuzleTiempoActivo
    | FallosPuzle | FallosTotales | PuzlesSuperados
    | FechaInicioJuego | FechaFinJuego | FechaCreacion | ResultadoID

  /** The attribute's name, as it appears in update expressions. */
  function Nombre(c: Campo): string {
    match c
    case UserID => "userID"
    case SesionID => "sesionID"
    case TipoUsuario => "tipoUsuario"
    case JuegoID => "juegoID"
    case PuzleActual => "puzleActual"
    case PuzleIniciado => "puzleIniciado"
    case PuzleTiempoActivo => "puzleTiempoActivo"
    case FallosPuzle => "fallosPuzle"
    case FallosTotales => "fallosTotales"
    case PuzlesSuperados => "puzlesSuperados"
    case FechaInicioJuego => "fechaInicioJuego"
    case FechaFinJuego => "fechaFinJuego"
    case FechaCreacion => "fechaCreacion"
    case ResultadoID => "resultadoID"
  }

  /** A stored session or result document. */
  type Registro = map<Campo, Value>

  /** The composite key (userID, sesionID) of the session table. */
  type Clave = (string, string)

  datatype Puzle = Puzle(
    tipo: Option<string>,
    instruccion: string,
    respuestaCorrecta: Option<string>,
    /** `pistas` when it is an array. */
    pistas: Option<seq<string>>,
    /** `Number(claveCifrado)`, None when that is NaN. */
    claveCifrado: Option<int>,
    narrativa: string,
    tiempoEstimadoSegundos: Option<int>)

  /** A game as the editor submits it. */
  datatype JuegoNuevo = JuegoNuevo(
    titulo: string,
    narrativa: string,
    fallosMaximosPuzle: Option<int>,
    tipoPortada: Option<string>,
    curso: Option<string>,
    puzles: Option<seq<Puzle>>)

  /** A stored game. */
  datatype Juego = Juego(
    juegoID: string,
    titulo: string,
    narrativa: string,
    fallosMaximosPuzle: Option<int>,
    tipoPortada: Option<string>,
    curso: Option<string>,
    puzles: Option<seq<Puzle>>,
    fechaCreacion: string)

  /** A bcrypt hash; `bcrypt.compare(p, h)` holds exactly when `h == Hash(p)`. */
  datatype Hash = Hash(de: string)

  datatype Usuario =
    | Personal(userID: string, tipo: string, nombre: string, usuario: string, password: Hash)
    | Alumno(userID: string, nombre: string, curso: string, grupo: string, nombreCursoGrupo: string)

  datatype Motivo = TipoNoValido | YaExiste | NoEncontrado | ContrasenaIncorrecta | TituloRepetido

  /** `{ success, userId, nombre }` of the user operations. */
  datatype Acceso = Ok(userID: string, nombre: string) | Falla(motivo: Motivo)

  // ---------------------------------------------------------------------
  // Users

  /** The `tipo` check of registration and login. */
  predicate TipoPersonal(tipo: string) {
    tipo == "docente" || tipo == "coordinador"
  }

  /** `DocentesCoordinadoresIndex` queried with `tipo = :tipo AND usuario = :usuario`. */
  function Personales(us: seq<Usuario>, tipo: string, usuario: string): seq<Usuario> {
    Filtrar(us, (u: Usuario) => u.Personal? && u.tipo == tipo && u.usuario == usuario)
  }

  /** `AlumnosIndex` queried with `nombreCursoGrupo = :ncg`. */
  function Alumnos(us: seq<Usuario>, ncg: string): seq<Usuario> {
    Filtrar(us, (u: Usuario) => u.Alumno? && u.nombreCursoGrupo == ncg)
  }

  /** The key `loginAlumno` stores: the three parts as typed. */
  function ClaveAlumno(nombre: string, curso: string, grupo: string): (k: string)
    ensures |k| == |nombre| + |curso| + |grupo| + 2
  {
    nombre + "#" + curso + "#" + grupo
  }

  /** `nombre.charAt(0).toUpperCase() + nombre.slice(1).toLowerCase()` */
  function Capitalizar(nombre: string): (r: string)
    ensures |r| == |nombre|
    ensures forall i :: 0 < i < |r| ==> r[i] == LowerChar(nombre[i])
    ensures |r| > 0 ==> r[0] == UpperChar(nombre[0])
  {
    if nombre == [] then [] else [UpperChar(nombre[0])] + ToLowerCase(nombre[1..])
  }

  /** The key `obtenerResultadosAlumno` looks up: the name capitalised, the course as is,
      the group upper-cased. */
  function ClaveResultados(nombre: string, curso: string, grupo: string): (k: string)
    ensures |k| == |nombre| + |curso| + |grupo| + 2
  {
    Capitalizar(nombre) + "#" + curso + "#" + ToUpperCase(grupo)
  }

  /** The key of the report table used by `obtenerReportesClase`. */
  function ClaveReporte(curso: string, grupo: string): (k: string)
    ensures |k| == |curso| + |grupo| + 1
    ensures k[..|curso|] == curso && k[|curso|] == '#'
    ensures forall i :: 0 <= i < |grupo| ==> k[|curso| + 1 + i] == UpperChar(grupo[i])
  {
    curso + "#" + ToUpperCase(grupo)
  }

  // ---------------------------------------------------------------------
  // Games

  /** The filter of `buscarJuegoPorTitulo`: the games whose lower-cased title equals the
      argument, in scan order; the argument is compared as given. */
  function JuegosConTitulo(js: seq<Juego>, titulo: string): seq<Juego> {
    Filtrar(js, (g: Juego) => ToLowerCase(g.titulo) == titulo)
  }

  /** `buscarJuegoPorID`: `(success, juego)`. A falsy id fails without a lookup; a string id
      gives the stored game with that id, if any. */
  function JuegoPorID(js: seq<Juego>, id: Option<Value>): (r: (bool, Option<Juego>))
    ensures id.None? || !TruthyValue(id.value) ==> r == (false, None)
    ensures id.Some? && TruthyValue(id.value) ==> r.0
    ensures r.1.Some? ==> r.1.value in js && id == Some(Str(r.1.value.juegoID))
    ensures (id.Some? && id.value.Str? && id.value.s != "" &&
             exists g :: g in js && g.juegoID == id.value.s) ==> r.1.Some?
  {
    if id.None? || !TruthyValue(id.value) then (false, None)
    else
      var hallados := Filtrar(js, (g: Juego) => id.value.Str? && g.juegoID == id.value.s);
      FiltrarExacto(js, (g: Juego) => id.value.Str? && g.juegoID == id.value.s);
      if hallados == [] then (true, None)
      else
        assert hallados[0] in hallados;
        (true, Some(hallados[0]))
  }

  // ---------------------------------------------------------------------
  // Results

  /** The document `guardarResultado` stores: missing counters become 0, missing dates become
      the current time, and `userID` is stored only when it is defined. */
  function NuevoResultado(userID: Option<Value>, fallosTotales: Option<Value>, puzlesSuperados: Option<Value>,
                          fechaInicioJuego: Option<Value>, fechaFinJuego: Option<Value>,
                          resultadoID: string, ahora: string): (r: Registro)
    ensures r.Keys == {ResultadoID, FallosTotales, PuzlesSuperados, FechaInicioJuego, FechaFinJuego}
                     + (if userID.Some? then {UserID} else {})
    ensures r[ResultadoID] == Str(resultadoID)
    ensures fallosTotales.None? || !TruthyValue(fallosTotales.value) ==> r[FallosTotales] == Num(0)
    ensures puzlesSuperados.None? || !TruthyValue(puzlesSuperados.value) ==> r[PuzlesSuperados] == Num(0)
    ensures fallosTotales.Some? && TruthyValue(fallosTotales.value) ==> r[FallosTotales] == fallosTotales.value
    ensures puzlesSuperados.Some? && TruthyValue(puzlesSuperados.value) ==> r[PuzlesSuperados] == puzlesSuperados.value
    ensures ahora != "" ==> TruthyValue(r[FechaInicioJuego]) && TruthyValue(r[FechaFinJuego])
    ensures userID.Some? ==> r[UserID] == userID.value
  {
    var base := map[
      ResultadoID := Str(resultadoID),
      FallosTotales := OrValue(fallosTotales, Num(0)),
      PuzlesSuperados := OrValue(puzlesSuperados, Num(0)),
      FechaInicioJuego := OrValue(fechaInicioJuego, Str(ahora)),
      FechaFinJuego := OrValue(fechaFinJuego, Str(ahora))];
    if userID.Some? then base[UserID := userID.value] else base
  }

  /** The results of one user, in query order. */
  function ResultadosDe(rs: seq<Registro>, userID: string): seq<Registro> {
    Filtrar(rs, (r: Registro) => Get(r, UserID) == Some(Str(userID)))
  }

  // ---------------------------------------------------------------------
  // Sessions

  /** The document `crearSesion` stores. */
  function NuevaSesion(userID: string, sesionID: string, tipoUsuario: string, juegoID: Value, ahora: string): Registro
  {
    map[
      UserID := Str(userID), SesionID := Str(sesionID), TipoUsuario := Str(tipoUsuario),
      JuegoID := juegoID, PuzleActual := Num(0), PuzleIniciado := Bool(false),
      PuzleTiempoActivo := Bool(false), FallosPuzle := Num(0), FallosTotales := Num(0),
      PuzlesSuperados := Num(0), FechaInicioJuego := Null, FechaFinJuego := Null,
      FechaCreacion := Str(ahora)]
  }

  /** The changes passed to `actualizarSesion`: an object literal, so its keys are distinct and
      `for ... in` visits them in the order written. */
  type Cambios = seq<(Campo, Value)>

  predicate ClavesDistintas(cambios: Cambios) {
    forall i, j :: 0 <= i < j < |cambios| ==> cambios[i].0 != cambios[j].0
  }

  function ClavesDe(cambios: Cambios): set<Campo> {
    set i | 0 <= i < |cambios| :: cambios[i].0
  }

  /** The effect of `SET k1 = :k1, ...` with `:ki` bound to the i-th value. */
  function Mezclar(base: Registro, cambios: Cambios): Registro
    decreases |cambios|
  {
    if cambios == [] then base else Mezclar(base[cambios[0].0 := cambios[0].1], cambios[1..])
  }

  /** The SET merge writes every changed attribute and leaves every other attribute, present
      or absent, as it was. */
  lemma {:induction false} MezclarEfecto(base: Registro, cambios: Cambios)
    requires ClavesDistintas(cambios)
    ensures Mezclar(base, cambios).Keys == base.Keys + ClavesDe(cambios)
    ensures forall i :: 0 <= i < |cambios| ==> Mezclar(base, cambios)[cambios[i].0] == cambios[i].1
    ensures forall f :: f !in ClavesDe(cambios) && f in base ==> Mezclar(base, cambios)[f] == base[f]
    decreases |cambios|
  {
    if cambios != [] {
      var resto := cambios[1..];
      assert ClavesDistintas(resto) by {
        forall i, j | 0 <= i < j < |resto| ensures resto[i].0 != resto[j].0 {
          assert resto[i] == cambios[i + 1] && resto[j] == cambios[j + 1];
        }
      }
      MezclarEfecto(base[cambios[0].0 := cambios[0].1], resto);
      assert ClavesDe(cambios) == {cambios[0].0} + ClavesDe(resto) by {
        forall f | f in ClavesDe(cambios) ensures f in {cambios[0].0} + ClavesDe(resto) {
          var i :| 0 <= i < |cambios| && cambios[i].0 == f;
          if i > 0 { assert resto[i - 1].0 == f; }
        }
        forall f | f in ClavesDe(resto) ensures f in ClavesDe(cambios) {
          var i :| 0 <= i < |resto| && resto[i].0 == f;
          assert cambios[i + 1].0 == f;
        }
      }
      forall i | 0 <= i < |cambios| ensures Mezclar(base, cambios)[cambios[i].0] == cambios[i].1 {
        if i > 0 {
          assert resto[i - 1] == cambios[i];
        } else {
          forall j | 0 <= j < |resto| ensures resto[j].0 != cambios[0].0 {
            assert resto[j] == cambios[j + 1];
          }
        }
      }
    }
  }

  lemma Mezclar1(b: Registro, f1: Campo, v1: Value)
    ensures Mezclar(b, [(f1, v1)]) == b[f1 := v1]
  {
    assert [(f1, v1)][1..] == [];
  }

  lemma Mezclar2(b: Registro, f1: Campo, v1: Value, f2: Campo, v2: Value)
    ensures Mezclar(b, [(f1, v1), (f2, v2)]) == b[f1 := v1][f2 := v2]
  {
    var c := [(f1, v1), (f2, v2)];
    assert c[1..] == [(f2, v2)];
    Mezclar1(b[f1 := v1], f2, v2);
  }

  lemma Mezclar3(b: Registro, f1: Campo, v1: Value, f2: Campo, v2: Value, f3: Campo, v3: Value)
    ensures Mezclar(b, [(f1, v1), (f2, v2), (f3, v3)]) == b[f1 := v1][f2 := v2][f3 := v3]
  {
    var c := [(f1, v1), (f2, v2), (f3, v3)];
    assert c[1..] == [(f2, v2), (f3, v3)];
    Mezclar2(b[f1 := v1], f2, v2, f3, v3);
  }

  lemma Mezclar4(b: Registro, f1: Campo, v1: Value, f2: Campo, v2: Value, f3: Campo, v3: Value, f4: Campo, v4: Value)
    ensures Mezclar(b, [(f1, v1), (f2, v2), (f3, v3), (f4, v4)]) == b[f1 := v1][f2 := v2][f3 := v3][f4 := v4]
  {
    var c := [(f1, v1), (f2, v2), (f3, v3), (f4, v4)];
    assert c[1..] == [(f2, v2), (f3, v3), (f4, v4)];
    Mezclar3(b[f1 := v1], f2, v2, f3, v3, f4, v4);
  }

  /** Merging a change set is merging its first entry, then the rest. */
  lemma MezclarConcat(b: Registro, c: Cambios, d: Cambios)
    ensures Mezclar(b, c + d) == Mezclar(Mezclar(b, c), d)
    decreases |c|
  {
    if c != [] {
      assert (c + d)[1..] == c[1..] + d;
      MezclarConcat(b[c[0].0 := c[0].1], c[1..], d);
    } else {
      assert c + d == d;
    }
  }

  /** The placeholder `:k` that carries the new value of `k`. */
  function Marcador(c: Campo): string {
    ":" + Nombre(c)
  }

  /** One clause `k = :k` of the update expression. */
  function Clausula(c: Campo): string {
    Nombre(c) + " = " + Marcador(c)
  }

  /** The clauses of a change set, in the order its keys are written. */
  function Clausulas(cambios: Cambios): (r: seq<string>)
    ensures |r| == |cambios|
    ensures forall i :: 0 <= i < |cambios| ==> r[i] == Clausula(cambios[i].0)
  {
    seq(|cambios|, i requires 0 <= i < |cambios| => Clausula(cambios[i].0))
  }

  /** `parts.join(', ')` */
  function Unir(partes: seq<string>): string
  {
    if partes == [] then "" else if |partes| == 1 then partes[0] else partes[0] + ", " + Unir(partes[1..])
  }

  /** Joining one more part appends a comma and that part. */
  lemma {:induction false} UnirAgregar(partes: seq<string>, x: string)
    requires partes != []
    ensures Unir(partes + [x]) == Unir(partes) + ", " + x
  {
    if |partes| > 1 {
      assert (partes + [x])[1..] == partes[1..] + [x];
      UnirAgregar(partes[1..], x);
    } else {
      assert (partes + [x])[1..] == [x];
    }
  }

  /** The loop of `actualizarSesion`: one clause and one placeholder value per changed key,
      then `SET ` followed by the clauses joined with commas. */
  method ConstruirExpresion(cambios: Cambios) returns (expr: string, valores: map<string, Value>)
    requires ClavesDistintas(cambios)
    ensures expr == "SET " + Unir(Clausulas(cambios))
    ensures forall m :: m in valores <==> exists i :: 0 <= i < |cambios| && m == Marcador(cambios[i].0)
    ensures forall i :: 0 <= i < |cambios| ==> valores[Marcador(cambios[i].0)] == cambios[i].1
    ensures cambios == [] <==> expr == "SET "
  {
    var partes: seq<string> := [];
    valores := map[];
    var i := 0;
    while i < |cambios|
      invariant 0 <= i <= |cambios|
      invariant partes == Clausulas(cambios[..i])
      invariant forall m :: m in valores <==> exists j :: 0 <= j < i && m == Marcador(cambios[j].0)
      invariant forall j :: 0 <= j < i ==> valores[Marcador(cambios[j].0)] == cambios[j].1
    {
      var (k, v) := cambios[i];
      partes := partes + [Clausula(k)];
      assert partes == Clausulas(cambios[..i + 1]);
      MarcadorNuevo(cambios, i);
      valores := valores[Marcador(k) := v];
      i := i + 1;
    }
    assert cambios[..i] == cambios;
    expr := "SET " + Unir(partes);
    assert |expr| == 4 + |Unir(partes)|;
  }

  /** Distinct keys give distinct placeholders: the i-th is none of the earlier ones. */
  lemma MarcadorNuevo(cambios: Cambios, i: nat)
    requires ClavesDistintas(cambios) && i < |cambios|
    ensures forall j :: 0 <= j < i ==> Marcador(cambios[j].0) != Marcador(cambios[i].0)
  {
    forall j | 0 <= j < i ensures Marcador(cambios[j].0) != Marcador(cambios[i].0) {
      MarcadorInyectivo(cambios[j].0, cambios[i].0);
    }
  }

  /** Different attributes have different placeholders. */
  lemma MarcadorInyectivo(a: Campo, b: Campo)
    ensures Marcador(a) == Marcador(b) ==> a == b
  {
    if a != b {
      NombreDistinto(a, b);
      assert Marcador(a)[1..] == Nombre(a);
      assert Marcador(b)[1..] == Nombre(b);
    }
  }

  lemma NombreDistinto(a: Campo, b: Campo)
    requires a != b
    ensures Nombre(a) != Nombre(b)
  {
    match a
    case UserID =>
    case SesionID =>
    case TipoUsuario =>
    case JuegoID =>
    case PuzleActual =>
      assert Nombre(a)[5] == 'A';
    case PuzleIniciado =>
      assert Nombre(a)[5] == 'I';
    case PuzleTiempoActivo =>
    case FallosPuzle =>
      assert Nombre(a)[6] == 'P';
    case FallosTotales =>
      assert Nombre(a)[6] == 'T';
    case PuzlesSuperados =>
    case FechaInicioJuego =>
    case FechaFinJuego =>
    case FechaCreacion =>
    case ResultadoID =>
  }

  /** `us[i]` is the first account of that type and user name. */
  predicate PrimerPersonal(us: seq<Usuario>, tipo: string, usuario: string, i: int) {
    0 <= i < |us| && us[i].Personal? && us[i].tipo == tipo && us[i].usuario == usuario &&
    forall j :: 0 <= j < i ==> !(us[j].Personal? && us[j].tipo == tipo && us[j].usuario == usuario)
  }

  /** The index query returns the first matching account first. */
  lemma PersonalesPrimero(us: seq<Usuario>, tipo: string, usuario: string)
    ensures forall i :: PrimerPersonal(us, tipo, usuario, i) ==>
              Personales(us, tipo, usuario) != [] && Personales(us, tipo, usuario)[0] == us[i]
  {
    forall i | PrimerPersonal(us, tipo, usuario, i)
      ensures Personales(us, tipo, usuario) != [] && Personales(us, tipo, usuario)[0] == us[i]
    {
      FiltrarPrimero(us, (u: Usuario) => u.Personal? && u.tipo == tipo && u.usuario == usuario, i);
    }
  }

  // ---------------------------------------------------------------------
  // The store

  class Db {
    var usuarios: seq<Usuario>
    var juegos: seq<Juego>
    var sesiones: map<Clave, Registro>
    var resultados: seq<Registro>

    constructor ()
      ensures usuarios == [] && juegos == [] && sesiones == map[] && resultados == []
    {
      usuarios := [];
      juegos := [];
      sesiones := map[];
      resultados := [];
    }

    /** `registrarDocenteCoordinador` */
    method RegistrarDocenteCoordinador(nombre: string, usuario: string, password: string, tipo: string,
                                       userID: string) returns (r: Acceso)
      modifies this
      ensures juegos == old(juegos) && sesiones == old(sesiones) && resultados == old(resultados)
      ensures !TipoPersonal(tipo) ==> r == Falla(TipoNoValido) && usuarios == old(usuarios)
      ensures TipoPersonal(tipo) && Personales(old(usuarios), tipo, usuario) != [] ==>
                r == Falla(YaExiste) && usuarios == old(usuarios)
      ensures TipoPersonal(tipo) && Personales(old(usuarios), tipo, usuario) == [] ==>
                r == Ok(userID, nombre) &&
                usuarios == old(usuarios) + [Personal(userID, tipo, nombre, usuario, Hash(password))]
    {
      if !TipoPersonal(tipo) {
        return Falla(TipoNoValido);
      }
      if Personales(usuarios, tipo, usuario) != [] {
        return Falla(YaExiste);
      }
      usuarios := usuarios + [Personal(userID, tipo, nombre, usuario, Hash(password))];
      r := Ok(userID, nombre);
    }

    /** `loginDocenteCoordinador`: the first account of that type and user name, when the
        password matches its hash. */
    function LoginDocenteCoordinador(usuario: string, password: string, tipo: string): (r: Acceso)
      reads this
      ensures !TipoPersonal(tipo) ==> r == Falla(TipoNoValido)
      ensures r.Ok? ==> exists u :: u in usuarios && u.Personal? && u.tipo == tipo &&
                          u.usuario == usuario && u.password == Hash(password) && u.userID == r.userID
      ensures TipoPersonal(tipo) ==>
                (r == Falla(NoEncontrado) <==>
                 forall u :: u in usuarios ==> !(u.Personal? && u.tipo == tipo && u.usuario == usuario))
      ensures forall i :: TipoPersonal(tipo) && PrimerPersonal(usuarios, tipo, usuario, i) ==>
                (r.Ok? <==> usuarios[i].password == Hash(password)) &&
                (r.Ok? ==> r == Ok(usuarios[i].userID, usuarios[i].nombre)) &&
                (!r.Ok? ==> r == Falla(ContrasenaIncorrecta))
    {
      if !TipoPersonal(tipo) then Falla(TipoNoValido)
      else
        var hallados := Personales(usuarios, tipo, usuario);
        FiltrarExacto(usuarios, (u: Usuario) => u.Personal? && u.tipo == tipo && u.usuario == usuario);
        PersonalesPrimero(usuarios, tipo, usuario);
        if hallados == [] then Falla(NoEncontrado)
        else
          assert hallados[0] in hallados;
          if hallados[0].password != Hash(password) then Falla(ContrasenaIncorrecta)
          else Ok(hallados[0].userID, hallados[0].nombre)
    }

    /** `loginAlumno`: the first student stored under the raw key, or a new one. */
    method LoginAlumno(nombre: string, curso: string, grupo: string, userID: string) returns (r: Acceso)
      modifies this
      ensures juegos == old(juegos) && sesiones == old(sesiones) && resultados == old(resultados)
      ensures r.Ok?
      ensures var hallados := Alumnos(old(usuarios), ClaveAlumno(nombre, curso, grupo));
              if hallados != [] then r == Ok(hallados[0].userID, hallados[0].nombre) && usuarios == old(usuarios)
              else r == Ok(userID, nombre) &&
                   usuarios == old(usuarios) + [Alumno(userID, nombre, curso, grupo, ClaveAlumno(nombre, curso, grupo))]
    {
      var ncg := ClaveAlumno(nombre, curso, grupo);
      var hallados := Alumnos(usuarios, ncg);
      if hallados != [] {
        return Ok(hallados[0].userID, hallados[0].nombre);
      }
      usuarios := usuarios + [Alumno(userID, nombre, curso, grupo, ncg)];
      r := Ok(userID, nombre);
    }

    /** `obtenerResultadosAlumno`: None when no student is stored under the normalised key;
        otherwise the results of the first such student. */
    function ObtenerResultadosAlumno(nombre: string, curso: string, grupo: string): (r: Option<seq<Registro>>)
      reads this
      ensures r.None? <==> Alumnos(usuarios, ClaveResultados(nombre, curso, grupo)) == []
      ensures r.Some? ==>
                forall x :: x in r.value <==>
                  x in resultados &&
                  Get(x, UserID) == Some(Str(Alumnos(usuarios, ClaveResultados(nombre, curso, grupo))[0].userID))
    {
      var hallados := Alumnos(usuarios, ClaveResultados(nombre, curso, grupo));
      if hallados == [] then None
      else
        FiltrarExacto(resultados, (x: Registro) => Get(x, UserID) == Some(Str(hallados[0].userID)));
        Some(ResultadosDe(resultados, hallados[0].userID))
    }

    /** `guardarJuego`: refused when a game with exactly that title exists. */
    method GuardarJuego(j: JuegoNuevo, juegoID: string, ahora: string) returns (r: Option<Juego>)
      modifies this
      ensures usuarios == old(usuarios) && sesiones == old(sesiones) && resultados == old(resultados)
      ensures (exists g :: g in old(juegos) && g.titulo == j.titulo) ==> r.None? && juegos == old(juegos)
      ensures (forall g :: g in old(juegos) ==> g.titulo != j.titulo) ==>
                var nuevo := Juego(juegoID, j.titulo, j.narrativa, j.fallosMaximosPuzle, j.tipoPortada,
                                   j.curso, j.puzles, ahora);
                r == Some(nuevo) && juegos == old(juegos) + [nuevo]
    {
      var iguales := Filtrar(juegos, (g: Juego) => g.titulo == j.titulo);
      FiltrarExacto(juegos, (g: Juego) => g.titulo == j.titulo);
      if |iguales| > 0 {
        assert iguales[0] in iguales;
        return None;
      }
      var nuevo := Juego(juegoID, j.titulo, j.narrativa, j.fallosMaximosPuzle, j.tipoPortada,
                         j.curso, j.puzles, ahora);
      juegos := juegos + [nuevo];
      r := Some(nuevo);
    }

    /** `buscarJuegoPorTitulo` */
    function BuscarJuegoPorTitulo(titulo: string): seq<Juego>
      reads this
    {
      JuegosConTitulo(juegos, titulo)
    }

    /** `buscarJuegoPorID` */
    function BuscarJuegoPorID(id: Option<Value>): (bool, Option<Juego>)
      reads this
    {
      JuegoPorID(juegos, id)
    }

    /** `crearSesion`: a fresh session for that user, with the game given (default null). */
    method CrearSesion(userID: string, tipoUsuario: string, juegoID: Value, sesionID: string, ahora: string)
      returns (r: Registro)
      modifies this
      ensures usuarios == old(usuarios) && juegos == old(juegos) && resultados == old(resultados)
      ensures r == NuevaSesion(userID, sesionID, tipoUsuario, juegoID, ahora)
      ensures sesiones == old(sesiones)[(userID, sesionID) := r]
    {
      r := NuevaSesion(userID, sesionID, tipoUsuario, juegoID, ahora);
      sesiones := sesiones[(userID, sesionID) := r];
    }

    /** `obtenerSesion`: the stored session, or null. */
    function ObtenerSesion(userID: string, sesionID: string): (r: Option<Registro>)
      reads this
      ensures r.Some? <==> (userID, sesionID) in sesiones
      ensures r.Some? ==> r.value == sesiones[(userID, sesionID)]
    {
      if (userID, sesionID) in sesiones then Some(sesiones[(userID, sesionID)]) else None
    }

    /** `actualizarSesion`: an update with `SET` of every changed attribute, returning the new
        document. The update creates the document when the key is absent; an empty change
        set gives the expression `SET `, which the store rejects without writing. */
    method ActualizarSesion(userID: string, sesionID: string, cambios: Cambios) returns (r: Option<Registro>)
      requires ClavesDistintas(cambios)
      modifies this
      ensures usuarios == old(usuarios) && juegos == old(juegos) && resultados == old(resultados)
      ensures cambios == [] ==> r.None? && sesiones == old(sesiones)
      ensures cambios != [] ==>
                var base := if (userID, sesionID) in old(sesiones) then old(sesiones)[(userID, sesionID)]
                            else map[UserID := Str(userID), SesionID := Str(sesionID)];
                r == Some(Mezclar(base, cambios)) &&
                sesiones == old(sesiones)[(userID, sesionID) := Mezclar(base, cambios)]
    {
      var expr, valores := ConstruirExpresion(cambios);
      if expr == "SET " {
        return None;
      }
      var base := if (userID, sesionID) in sesiones then sesiones[(userID, sesionID)]
                  else map[UserID := Str(userID), SesionID := Str(sesionID)];
      var nuevo := Mezclar(base, cambios);
      sesiones := sesiones[(userID, sesionID) := nuevo];
      r := Some(nuevo);
    }

    /** `eliminarSesion` */
    method EliminarSesion(userID: string, sesionID: string)
      modifies this
      ensures usuarios == old(usuarios) && juegos == old(juegos) && resultados == old(resultados)
      ensures sesiones == old(sesiones) - {(userID, sesionID)}
    {
      sesiones := sesiones - {(userID, sesionID)};
    }

    /** `guardarResultado` */
    method GuardarResultado(userID: Option<Value>, fallosTotales: Option<Value>, puzlesSuperados: Option<Value>,
                            fechaInicioJuego: Option<Value>, fechaFinJuego: Option<Value>,
                            resultadoID: string, ahora: string)
      modifies this
      ensures usuarios == old(usuarios) && juegos == old(juegos) && sesiones == old(sesiones)
      ensures resultados == old(resultados) + [NuevoResultado(userID, fallosTotales, puzlesSuperados,
                                                              fechaInicioJuego, fechaFinJuego, resultadoID, ahora)]
    {
      resultados := resultados + [NuevoResultado(userID, fallosTotales, puzlesSuperados,
                                                 fechaInicioJuego, fechaFinJuego, resultadoID, ahora)];
    }
  }

  // ---------------------------------------------------------------------
  // Properties

  /** A fresh session is at the first puzzle, with nothing started and every counter at
      zero, and it is stored under the key its own attributes name. */
  lemma SesionNuevaCoherente(userID: string, sesionID: string, tipo: string, juegoID: Value, ahora: string)
    ensures var s := NuevaSesion(userID, sesionID, tipo, juegoID, ahora);
            s[PuzleActual] == Num(0) && !Truthy(s, PuzleIniciado) && !Truthy(s, PuzleTiempoActivo) &&
            NumOr0(s, FallosPuzle) == 0 && NumOr0(s, FallosTotales) == 0 && NumOr0(s, PuzlesSuperados) == 0 &&
            s[FechaInicioJuego] == Null && s[FechaFinJuego] == Null && s[JuegoID] == juegoID &&
            s[UserID] == Str(userID) && s[SesionID] == Str(sesionID)
  {
  }

  /** The title search returns exactly the games whose lower-cased title is the argument. */
  lemma BuscarTituloExacto(js: seq<Juego>, titulo: string)
    ensures forall g :: g in JuegosConTitulo(js, titulo) <==> g in js && ToLowerCase(g.titulo) == titulo
  {
    FiltrarExacto(js, (g: Juego) => ToLowerCase(g.titulo) == titulo);
  }

  /** Because the argument is not lower-cased, a title with an upper-case letter finds nothing. */
  lemma BuscarTituloMayuscula(js: seq<Juego>, titulo: string, i: nat)
    requires i < |titulo| && IsAsciiUpper(titulo[i])
    ensures JuegosConTitulo(js, titulo) == []
  {
    BuscarTituloExacto(js, titulo);
    if JuegosConTitulo(js, titulo) != [] {
      var g := JuegosConTitulo(js, titulo)[0];
      assert g in JuegosConTitulo(js, titulo);
      LowerCharIdempotent(g.titulo[i]);
    }
  }

  /** Capitalising is the identity exactly on names that are already capitalised. */
  lemma {:induction false} ClavesCoinciden(nombre: string, curso: string, grupo: string)
    ensures ClaveResultados(nombre, curso, grupo) == ClaveAlumno(nombre, curso, grupo) <==>
            Capitalizar(nombre) == nombre && ToUpperCase(grupo) == grupo
  {
    var a := ClaveResultados(nombre, curso, grupo);
    var b := ClaveAlumno(nombre, curso, grupo);
    if a == b {
      assert a[..|nombre|] == Capitalizar(nombre);
      assert b[..|nombre|] == nombre;
      assert a[|nombre| + 2 + |curso|..] == ToUpperCase(grupo);
      assert b[|nombre| + 2 + |curso|..] == grupo;
    }
  }

  /** A student who typed a lower-case name is stored under a key the result lookup never
      builds: "ana#1#a" is stored, "Ana#1#A" is looked up. */
  lemma ClaveAlumnoMinuscula()
    ensures ClaveAlumno("ana", "1", "a") == "ana#1#a"
    ensures ClaveResultados("ana", "1", "a") == "Ana#1#A"
  {
    assert Capitalizar("ana") == "Ana" by {
      assert ToLowerCase("ana"[1..]) == "na";
    }
    assert ToUpperCase("a") == "A";
  }

  /** After `loginAlumno` with a capitalised name and an upper-case group, the result lookup
      with the same three values finds a student. */
  lemma LoginAlumnoLocalizable(db: Db, nombre: string, curso: string, grupo: string, i: nat)
    requires Capitalizar(nombre) == nombre && ToUpperCase(grupo) == grupo
    requires i < |db.usuarios| && db.usuarios[i] == Alumno(db.usuarios[i].userID, nombre, curso, grupo,
                                                           ClaveAlumno(nombre, curso, grupo))
    ensures db.ObtenerResultadosAlumno(nombre, curso, grupo).Some?
  {
    ClavesCoinciden(nombre, curso, grupo);
    var k := ClaveResultados(nombre, curso, grupo);
    FiltrarExacto(db.usuarios, (u: Usuario) => u.Alumno? && u.nombreCursoGrupo == k);
    assert db.usuarios[i] in Alumnos(db.usuarios, k);
  }
}
