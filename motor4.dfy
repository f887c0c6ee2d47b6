/** The earlier revision of the skill (entrega4/lambda/index.js). The game state lives in
    the Alexa session attributes, an object the handlers update in place; it is the class
    `AtributosSesion`. Each handler method is proved equal to a step function on a snapshot
    (`Sesion4`) of those attributes, and the properties are lemmas about the step functions.
    In this revision a puzzle's `respuestaCorrecta` is an array of accepted answers. */
module Motor4 {
  import opened Js
  import opened Texto

  /** The value of `puzleActual`: undefined before any game, null after `finalizarJuego`,
      a number, or NaN (what `undefined += 1` gives). */
  datatype Indice = Indefinido | Nulo | Numero(n: int) | NoNumero

  /** `puzleActual += 1` */
  function Incremento(i: Indice): Indice {
    match i
    case Numero(n) => Numero(n + 1)
    case Nulo => Numero(1)
    case _ => NoNumero
  }

  /** `puzleActual || 0` */
  function IndiceOr0(i: Indice): int {
    if i.Numero? then i.n else 0
  }

  /** `puzleActual >= n`: null counts as 0, undefined and NaN compare false. */
  predicate IndiceGe(i: Indice, n: int) {
    match i
    case Numero(m) => m >= n
    case Nulo => 0 >= n
    case _ => false
  }

  datatype Puzle4 = Puzle4(tipo: Option<string>, instruccion: Option<string>, respuestaCorrecta: Option<seq<string>>,
                           pistas: Option<seq<string>>, claveCifrado: Option<int>, tiempoEstimadoSegundos: Option<int>)

  datatype Juego4 = Juego4(titulo: string, narrativa: Option<string>, tipoPortada: Option<string>,
                           fallosMaximosPuzle: Option<int>, puzles: seq<Puzle4>)

  /** The `datos` of a `mostrar_puzle` message: a string, or the answer array itself. */
  datatype Datos = Texto(s: string) | Lista(l: seq<string>)

  /** What a handler answers: the speech and screen directive, reduced to a tag. */
  datatype Respuesta4 =
    | SinSesionIniciada
    | TituloDesconocido(titulo: string)
    | Portada(titulo: string, narrativa: Option<string>, tipoPortada: Option<string>)
    | SinJuego
    | SinDesafio
    | EnCurso
    | MostrarPuzle(datos: Datos, tipo: Option<string>, instruccion: Option<string>, tiempoMaximo: Option<int>)
    | Pista(pista: string)
    | Reintentar
    | Continuar
    | Finalizado
    | FinPorFallos
    | FinPorTiempo
    | SinManejador

  /** The responses sent with `shouldEndSession` set. */
  predicate CierraSesion(r: Respuesta4) {
    r == Finalizado || r == FinPorFallos || r == FinPorTiempo
  }

  /** A snapshot of the session attributes the game uses. `puzleIniciado` and
      `puzleTiempoActivo` are only ever assigned booleans (undefined reads as false), and
      `fallosPuzle` only 0 or one more than before. */
  datatype Sesion4 = Sesion4(juego: Option<Juego4>, puzleActual: Indice, puzleIniciado: bool, puzleTiempoActivo: bool,
                             fallosPuzle: nat, usuarioLogueado: Option<string>, tipoUsuario: Option<string>)

  const SESION_VACIA: Sesion4 := Sesion4(None, Indefinido, false, false, 0, None, None)

  // ---------------------------------------------------------------------
  // cifradoCesar

  /** JavaScript's `a <= b` on strings: lexicographic order of the characters. */
  predicate LexMenorIgual(a: string, b: string)
    decreases |a|
  {
    a == [] || (b != [] && (a[0] < b[0] || (a[0] == b[0] && LexMenorIgual(a[1..], b[1..]))))
  }

  /** `lo <= x && x <= hi` for one-character strings `lo` and `hi`. */
  predicate EntreLex(x: string, lo: char, hi: char) {
    LexMenorIgual([lo], x) && LexMenorIgual(x, [hi])
  }

  /** One character shifted within the block of 26 letters starting at `base`. */
  function Rotar(c: char, base: int, clave: int): char
    requires (base == 65 || base == 97) && base <= c as int < base + 26
  {
    (JsRem(c as int - base + clave, 26) + base) as char
  }

  /** A string between two one-character strings starts with a character between them. */
  lemma EntreLexPrimero(x: string, lo: char, hi: char)
    requires EntreLex(x, lo, hi)
    ensures x != [] && lo <= x[0] <= hi
  {
  }

  /** One step of the loop of `cifradoCesar` on the element `x = texto[i]`: for a string
      the element is a one-character string, for an array it is one answer. An element
      between "A" and "Z" (or "a" and "z") in string order is replaced by its first
      character shifted; any other element is appended unchanged. */
  function PasoCesar(x: string, clave: int): (r: string)
  {
    if EntreLex(x, 'A', 'Z') then
      EntreLexPrimero(x, 'A', 'Z');
      [Rotar(x[0], 65, clave)]
    else if EntreLex(x, 'a', 'z') then
      EntreLexPrimero(x, 'a', 'z');
      [Rotar(x[0], 97, clave)]
    else x
  }

  /** `cifradoCesar(texto, clave)` on the elements of `texto`, as the loop accumulates it. */
  function Cifrado4(texto: seq<string>, clave: int): string
  {
    if texto == [] then "" else Cifrado4(texto[..|texto| - 1], clave) + PasoCesar(texto[|texto| - 1], clave)
  }

  /** The loop of `cifradoCesar`. */
  method CifradoCesar(texto: seq<string>, clave: int) returns (resultado: string)
    ensures resultado == Cifrado4(texto, clave)
  {
    resultado := "";
    var i := 0;
    while i < |texto|
      invariant 0 <= i <= |texto|
      invariant resultado == Cifrado4(texto[..i], clave)
    {
      assert texto[..i + 1][..i] == texto[..i];
      resultado := resultado + PasoCesar(texto[i], clave);
      i := i + 1;
    }
    assert texto[..i] == texto;
  }

  /** A JavaScript string seen as the elements `texto[i]` of the loop. */
  function Caracteres(s: string): (r: seq<string>)
    ensures |r| == |s| && forall i :: 0 <= i < |s| ==> r[i] == [s[i]]
  {
    seq(|s|, i requires 0 <= i < |s| => [s[i]])
  }

  /** The cipher on one character: A to Z and a to z are shifted within their own case. */
  function CesarChar4(c: char, clave: int): char {
    if 'A' <= c <= 'Z' then Rotar(c, 65, clave)
    else if 'a' <= c <= 'z' then Rotar(c, 97, clave)
    else c
  }

  // ---------------------------------------------------------------------
  // Pure helpers

  /** `getPuzleActual`: the puzzle at `puzleActual || 0`, when there is one. */
  function PuzleActualDe4(a: Sesion4): (r: Option<Puzle4>)
    ensures r.Some? <==> a.juego.Some? && 0 <= IndiceOr0(a.puzleActual) < |a.juego.value.puzles|
    ensures r.Some? ==> r.value == a.juego.value.puzles[IndiceOr0(a.puzleActual)]
  {
    var idx := IndiceOr0(a.puzleActual);
    if a.juego.None? || idx < 0 || idx >= |a.juego.value.puzles| then None
    else Some(a.juego.value.puzles[idx])
  }

  /** `juegoTerminado` */
  predicate Terminado4(a: Sesion4) {
    a.juego.None? || IndiceGe(a.puzleActual, |a.juego.value.puzles|)
  }

  /** The `datos` sent to the screen, as written: for a `cifrado-cesar` puzzle the answer
      array (or `''` when it is missing) is passed to `cifradoCesar` as it is. */
  function MensajeComoEscrito(p: Puzle4): Datos {
    if p.tipo == Some("cifrado-cesar") then
      Texto(Cifrado4(if p.respuestaCorrecta.Some? then p.respuestaCorrecta.value else [], p.claveCifrado.GetOr(0)))
    else if p.respuestaCorrecta.Some? then Lista(p.respuestaCorrecta.value)
    else Texto("")
  }

  /** The `datos` as evidently intended: the text enciphered is the (first) answer. */
  function MensajeCorregido(p: Puzle4): Datos {
    if p.tipo == Some("cifrado-cesar") then
      var respuesta := if p.respuestaCorrecta.Some? && |p.respuestaCorrecta.value| > 0 then p.respuestaCorrecta.value[0] else "";
      Texto(Cifrado4(Caracteres(respuesta), p.claveCifrado.GetOr(0)))
    else MensajeComoEscrito(p)
  }

  /** The accepted answers, normalised: `(respuestaCorrecta || []).map(normalizar)`. */
  function Aceptadas(p: Puzle4): (r: seq<string>)
    ensures |r| == |p.respuestaCorrecta.GetOr([])|
    ensures forall i :: 0 <= i < |r| ==> r[i] == Normalizar(Some(p.respuestaCorrecta.GetOr([])[i]))
  {
    var l := p.respuestaCorrecta.GetOr([]);
    seq(|l|, i requires 0 <= i < |l| => Normalizar(Some(l[i])))
  }

  /** The answer is correct when its normal form is one of the accepted answers' normal forms. */
  predicate Acierta4(slot: Option<string>, p: Puzle4) {
    Normalizar(slot) in Aceptadas(p)
  }

  /** `(puzle.pistas || []).length` */
  function NumPistas4(p: Puzle4): nat {
    if p.pistas.Some? then |p.pistas.value| else 0
  }

  /** `falloActual < juego.fallosMaximosPuzle`; an undefined budget compares false. */
  predicate BajoPresupuesto4(f: int, j: Juego4) {
    j.fallosMaximosPuzle.Some? && f < j.fallosMaximosPuzle.value
  }

  // ---------------------------------------------------------------------
  // Step functions

  /** `avanzarPuzle` */
  function Avanzado4(a: Sesion4): Sesion4 {
    a.(puzleActual := Incremento(a.puzleActual), puzleIniciado := false, puzleTiempoActivo := false, fallosPuzle := 0)
  }

  /** `finalizarJuego`: the game and the index are set to null. */
  function Finalizar4(a: Sesion4): Sesion4 {
    a.(juego := None, puzleActual := Nulo)
  }

  /** `iniciarPuzleActual`: both flags set; the puzzle's failure count is not reset. */
  function IniciarPaso4(a: Sesion4): (Sesion4, Respuesta4) {
    var p := PuzleActualDe4(a);
    if p.None? then (Finalizar4(a), Finalizado)
    else (a.(puzleIniciado := true, puzleTiempoActivo := true),
          MostrarPuzle(MensajeComoEscrito(p.value), p.value.tipo, p.value.instruccion, p.value.tiempoEstimadoSegundos))
  }

  /** `pedirContinuar` */
  function PedirPaso4(a: Sesion4): (Sesion4, Respuesta4) {
    if Terminado4(a) then (Finalizar4(a), Finalizado) else (a, Continuar)
  }

  /** `CargarEscapeRoomIntentHandler`; `buscar` is the title lookup of the store. */
  function CargarPaso4(a: Sesion4, slot: Option<string>, buscar: string -> seq<Juego4>): (Sesion4, Respuesta4) {
    if a.usuarioLogueado.None? || a.usuarioLogueado.value == "" then (a, SinSesionIniciada)
    else
      var titulo := ToLowerCase(OrStr(slot, ""));
      var hallados := buscar(titulo);
      if hallados == [] then (a, TituloDesconocido(titulo))
      else (a.(juego := Some(hallados[0]), puzleActual := Numero(0), puzleIniciado := false,
               puzleTiempoActivo := false, fallosPuzle := 0),
            Portada(titulo, hallados[0].narrativa, hallados[0].tipoPortada))
  }

  /** `YesIntentHandler`, reached only with a game loaded. */
  function SiPaso4(a: Sesion4): (Sesion4, Respuesta4) {
    if a.puzleIniciado then (a, EnCurso)
    else if Terminado4(a) then (Finalizar4(a), Finalizado)
    else IniciarPaso4(a)
  }

  /** `ResolverPuzleIntentHandler`, reached only with a game loaded and both flags set. */
  function ResolverPaso4(a: Sesion4, slot: Option<string>): (Sesion4, Respuesta4) {
    var p := PuzleActualDe4(a);
    if p.None? then (Finalizar4(a), Finalizado)
    else if Acierta4(slot, p.value) then PedirPaso4(Avanzado4(a))
    else
      var a2 := a.(fallosPuzle := a.fallosPuzle + 1);
      var f := a2.fallosPuzle;
      if f <= NumPistas4(p.value) then (a2, Pista(p.value.pistas.value[f - 1]))
      else if BajoPresupuesto4(f, a.juego.value) then (a2, Reintentar)
      else
        var a3 := Avanzado4(a2);
        if Terminado4(a3) then (a3, FinPorFallos) else PedirPaso4(a3)
  }

  /** The `tiempo_acabado` branch of `ProcessHTMLMessageHandler`: it checks nothing. */
  function TiempoPaso4(a: Sesion4): (Sesion4, Respuesta4) {
    var a2 := Avanzado4(a.(puzleIniciado := false, puzleTiempoActivo := false, fallosPuzle := 0));
    if Terminado4(a2) then (a2, FinPorTiempo) else PedirPaso4(a2)
  }

  /** The requests of the game. */
  datatype Intento = Cargar(tituloJuego: Option<string>) | Si | Resolver(respuestaUsuario: Option<string>) | TiempoAcabado

  /** One request, answered by the first handler whose `canHandle` accepts it, in the order
      the handlers are registered. */
  function Turno(a: Sesion4, i: Intento, buscar: string -> seq<Juego4>): (Sesion4, Respuesta4) {
    match i
    case Cargar(slot) => CargarPaso4(a, slot, buscar)
    case Si => if a.juego.Some? then SiPaso4(a) else (a, SinJuego)
    case Resolver(slot) =>
      if a.juego.None? || !a.puzleIniciado then (a, SinDesafio)
      else if a.puzleTiempoActivo then ResolverPaso4(a, slot)
      else (a, SinManejador)
    case TiempoAcabado => TiempoPaso4(a)
  }

  // ---------------------------------------------------------------------
  // The session attributes

  class AtributosSesion {
    var juego: Option<Juego4>
    var puzleActual: Indice
    var puzleIniciado: bool
    var puzleTiempoActivo: bool
    var fallosPuzle: nat
    var usuarioLogueado: Option<string>
    var tipoUsuario: Option<string>

    function Foto(): Sesion4
      reads this
    {
      Sesion4(juego, puzleActual, puzleIniciado, puzleTiempoActivo, fallosPuzle, usuarioLogueado, tipoUsuario)
    }

    /** The attributes of a new Alexa session: nothing set. */
    constructor ()
      ensures Foto() == SESION_VACIA
    {
      juego, puzleActual, puzleIniciado, puzleTiempoActivo := None, Indefinido, false, false;
      fallosPuzle, usuarioLogueado, tipoUsuario := 0, None, None;
    }

    method AvanzarPuzle()
      modifies this
      ensures Foto() == Avanzado4(old(Foto()))
    {
      puzleActual := Incremento(puzleActual);
      puzleIniciado := false;
      puzleTiempoActivo := false;
      fallosPuzle := 0;
    }

    method FinalizarJuego() returns (r: Respuesta4)
      modifies this
      ensures Foto() == Finalizar4(old(Foto())) && r == Finalizado
    {
      juego := None;
      puzleActual := Nulo;
      r := Finalizado;
    }

    method IniciarPuzleActual() returns (r: Respuesta4)
      modifies this
      ensures (Foto(), r) == IniciarPaso4(old(Foto()))
    {
      var puzle := PuzleActualDe4(Foto());
      if puzle.None? {
        r := FinalizarJuego();
        return;
      }
      puzleIniciado := true;
      puzleTiempoActivo := true;
      var p := puzle.value;
      var datos: Datos;
      if p.tipo == Some("cifrado-cesar") {
        var m := CifradoCesar(if p.respuestaCorrecta.Some? then p.respuestaCorrecta.value else [], p.claveCifrado.GetOr(0));
        datos := Texto(m);
      } else if p.respuestaCorrecta.Some? {
        datos := Lista(p.respuestaCorrecta.value);
      } else {
        datos := Texto("");
      }
      r := MostrarPuzle(datos, p.tipo, p.instruccion, p.tiempoEstimadoSegundos);
    }

    method PedirContinuar() returns (r: Respuesta4)
      modifies this
      ensures (Foto(), r) == PedirPaso4(old(Foto()))
    {
      if Terminado4(Foto()) {
        r := FinalizarJuego();
      } else {
        r := Continuar;
      }
    }

    method CargarEscapeRoom(slot: Option<string>, buscar: string -> seq<Juego4>) returns (r: Respuesta4)
      modifies this
      ensures (Foto(), r) == CargarPaso4(old(Foto()), slot, buscar)
    {
      if usuarioLogueado.None? || usuarioLogueado.value == "" {
        return SinSesionIniciada;
      }
      var titulo := ToLowerCase(OrStr(slot, ""));
      var hallados := buscar(titulo);
      if hallados == [] {
        return TituloDesconocido(titulo);
      }
      var j := hallados[0];
      juego := Some(j);
      puzleActual := Numero(0);
      puzleIniciado := false;
      puzleTiempoActivo := false;
      fallosPuzle := 0;
      r := Portada(titulo, j.narrativa, j.tipoPortada);
    }

    method Si()
      returns (r: Respuesta4)
      requires juego.Some?
      modifies this
      ensures (Foto(), r) == SiPaso4(old(Foto()))
    {
      if puzleIniciado {
        return EnCurso;
      }
      if Terminado4(Foto()) {
        r := FinalizarJuego();
        return;
      }
      r := IniciarPuzleActual();
    }

    /** `IntentSinJuegoHandler`: guidance, and the attributes are not touched. */
    method IntentSinJuego(esSi: bool) returns (r: Respuesta4)
      ensures r == (if esSi then SinJuego else SinDesafio)
    {
      r := if esSi then SinJuego else SinDesafio;
    }

    method ResolverPuzle(slot: Option<string>) returns (r: Respuesta4)
      requires juego.Some? && puzleIniciado && puzleTiempoActivo
      modifies this
      ensures (Foto(), r) == ResolverPaso4(old(Foto()), slot)
    {
      var puzle := PuzleActualDe4(Foto());
      if puzle.None? {
        r := FinalizarJuego();
        return;
      }
      var p := puzle.value;
      if Normalizar(slot) in Aceptadas(p) {
        AvanzarPuzle();
        r := PedirContinuar();
        return;
      }
      fallosPuzle := fallosPuzle + 1;
      var falloActual := fallosPuzle;
      if falloActual <= NumPistas4(p) {
        r := Pista(p.pistas.value[falloActual - 1]);
      } else if BajoPresupuesto4(falloActual, juego.value) {
        r := Reintentar;
      } else {
        AvanzarPuzle();
        if Terminado4(Foto()) {
          r := FinPorFallos;
        } else {
          r := PedirContinuar();
        }
      }
    }

    method TiempoAcabado() returns (r: Respuesta4)
      modifies this
      ensures (Foto(), r) == TiempoPaso4(old(Foto()))
    {
      puzleIniciado := false;
      puzleTiempoActivo := false;
      fallosPuzle := 0;
      AvanzarPuzle();
      if Terminado4(Foto()) {
        r := FinPorTiempo;
      } else {
        r := PedirContinuar();
      }
    }

    /** The handler chain: the request goes to the first handler that accepts it. */
    method Atender(i: Intento, buscar: string -> seq<Juego4>) returns (r: Respuesta4)
      modifies this
      ensures (Foto(), r) == Turno(old(Foto()), i, buscar)
    {
      match i
      case Cargar(slot) =>
        r := CargarEscapeRoom(slot, buscar);
      case Si =>
        if juego.Some? {
          r := Si();
        } else {
          r := IntentSinJuego(true);
        }
      case Resolver(slot) =>
        if juego.None? || !puzleIniciado {
          r := IntentSinJuego(false);
        } else if puzleTiempoActivo {
          r := ResolverPuzle(slot);
        } else {
          r := SinManejador;
        }
      case TiempoAcabado =>
        r := TiempoAcabado();
    }
  }
}
