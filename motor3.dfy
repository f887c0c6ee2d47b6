/** The first playable revision of the skill (entrega3/lambda/index.js): a fixed game of
    three spoken challenges whose progress lives in two session attributes, `estado` and
    `desafioActual`, which the handlers assign in place. The attributes are the class
    `Sesion3`; each handler method is proved equal to a step function on a snapshot. */
module Motor3 {
  import opened Js

  /** A snapshot of the two attributes; None stands for undefined. */
  datatype Estado3 = Estado3(estado: Option<string>, desafioActual: Option<int>)

  const INICIAL: Estado3 := Estado3(None, None)

  /** What a handler answers, reduced to a tag. */
  datatype Respuesta3 =
    | Narrativa                       // the story and the first challenge
    | NoIniciado                      // an answer before the game started, or after it ended
    | Correcto(siguiente: int)        // a challenge solved, the next one read out
    | Incorrecto(desafio: int)        // the challenge's hint
    | Escapado                        // the third challenge solved
    | SinDesafio                      // `default` of the switch
    | EnJuego(desafio: int)           // fallback while playing
    | YaCompletado                    // fallback or help after the game
    | NoEntendido                     // fallback otherwise
    | AyudaJugando
    | AyudaInicio

  /** A response and whether it carries `shouldEndSession`. */
  datatype Salida = Salida(respuesta: Respuesta3, finSesion: bool)

  /** The ciphered message the first challenge displays. */
  const MENSAJE_CIFRADO: string := "O V S H   T B U K V"

  /** The `n` characters of `s` from index `i`. */
  function Tramo(s: string, i: nat, n: nat): string
    requires i + n <= |s|
  {
    s[i..i + n]
  }

  /** `s.includes(sub)` */
  predicate Contiene(s: string, sub: string) {
    exists i | 0 <= i <= |s| - |sub| :: Tramo(s, i, |sub|) == sub
  }

  /** Whether `respuesta` (already lower-cased) solves challenge `n`, as written. */
  predicate Resuelve(n: int, respuesta: string) {
    if n == 1 then Contiene(respuesta, "miro") && Contiene(respuesta, "pizarra")
    else if n == 2 then Contiene(respuesta, "hueco") || Contiene(respuesta, "vacío")
    else n == 3 && Contiene(respuesta, "20")
  }

  /** `IniciarJuegoIntentHandler`: from any state, playing the first challenge. */
  function IniciarPaso3(e: Estado3): (Estado3, Salida) {
    (Estado3(Some("jugando"), Some(1)), Salida(Narrativa, false))
  }

  /** `ResolverPuzzleIntentHandler`: the answer, lower-cased, is matched against the
      challenge `desafioActual` selects; `shouldEndSession` stays false on every path. */
  function ResolverPaso3(e: Estado3, slot: Option<string>): (Estado3, Salida) {
    var respuesta := ToLowerCase(OrStr(slot, ""));
    if e.estado != Some("jugando") then (e, Salida(NoIniciado, false))
    else if e.desafioActual == Some(1) then
      if Resuelve(1, respuesta) then (e.(desafioActual := Some(2)), Salida(Correcto(2), false))
      else (e, Salida(Incorrecto(1), false))
    else if e.desafioActual == Some(2) then
      if Resuelve(2, respuesta) then (e.(desafioActual := Some(3)), Salida(Correcto(3), false))
      else (e, Salida(Incorrecto(2), false))
    else if e.desafioActual == Some(3) then
      if Resuelve(3, respuesta) then (e.(estado := Some("completado")), Salida(Escapado, false))
      else (e, Salida(Incorrecto(3), false))
    else (e, Salida(SinDesafio, false))
  }

  /** `FallbackIntentHandler` as written: the end state it tests is `'terminado'`. */
  function FallbackComoEscrito(e: Estado3): Respuesta3 {
    if e.estado == Some("jugando") then EnJuego(if e.desafioActual.Some? && e.desafioActual.value != 0 then e.desafioActual.value else 1)
    else if e.estado == Some("terminado") then YaCompletado
    else NoEntendido
  }

  /** The fallback as evidently intended: the end state is `'completado'`, the one the
      answer handler sets and the help handler tests. */
  function FallbackCorregido(e: Estado3): Respuesta3 {
    if e.estado == Some("jugando") then EnJuego(if e.desafioActual.Some? && e.desafioActual.value != 0 then e.desafioActual.value else 1)
    else if e.estado == Some("completado") then YaCompletado
    else NoEntendido
  }

  /** `HelpIntentHandler` */
  function Ayuda(e: Estado3): Respuesta3 {
    if e.estado == Some("jugando") then AyudaJugando
    else if e.estado == Some("completado") then YaCompletado
    else AyudaInicio
  }

  /** The first challenge's check as evidently intended: the message spells HOLA MUNDO
      (the greeting the hint describes) in a shift of 7 (the hint's key). */
  predicate ResuelvePrimeroCorregido(respuesta: string) {
    Contiene(respuesta, "hola") && Contiene(respuesta, "mundo")
  }

  class Sesion3 {
    var estado: Option<string>
    var desafioActual: Option<int>

    function Foto(): Estado3
      reads this
    {
      Estado3(estado, desafioActual)
    }

    constructor ()
      ensures Foto() == INICIAL
    {
      estado := None;
      desafioActual := None;
    }

    method IniciarJuego() returns (s: Salida)
      modifies this
      ensures (Foto(), s) == IniciarPaso3(old(Foto()))
    {
      estado := Some("jugando");
      desafioActual := Some(1);
      s := Salida(Narrativa, false);
    }

    method ResolverPuzzle(slot: Option<string>) returns (s: Salida)
      modifies this
      ensures (Foto(), s) == ResolverPaso3(old(Foto()), slot)
    {
      var respuesta := ToLowerCase(OrStr(slot, ""));
      var finSesion := false;
      if estado != Some("jugando") {
        return Salida(NoIniciado, false);
      }
      var r: Respuesta3;
      if desafioActual == Some(1) {
        if Contiene(respuesta, "miro") && Contiene(respuesta, "pizarra") {
          desafioActual := Some(2);
          r := Correcto(2);
        } else {
          r := Incorrecto(1);
        }
      } else if desafioActual == Some(2) {
        if Contiene(respuesta, "hueco") || Contiene(respuesta, "vacío") {
          desafioActual := Some(3);
          r := Correcto(3);
        } else {
          r := Incorrecto(2);
        }
      } else if desafioActual == Some(3) {
        if Contiene(respuesta, "20") {
          estado := Some("completado");
          r := Escapado;
        } else {
          r := Incorrecto(3);
        }
      } else {
        r := SinDesafio;
      }
      s := Salida(r, finSesion);
    }

    method Fallback() returns (r: Respuesta3)
      ensures r == FallbackComoEscrito(Foto())
    {
      if estado == Some("jugando") {
        var desafio := if desafioActual.Some? && desafioActual.value != 0 then desafioActual.value else 1;
        r := EnJuego(desafio);
      } else if estado == Some("terminado") {
        r := YaCompletado;
      } else {
        r := NoEntendido;
      }
    }

    method AyudaIntent() returns (r: Respuesta3)
      ensures r == Ayuda(Foto())
    {
      if estado == Some("jugando") {
        r := AyudaJugando;
      } else if estado == Some("completado") {
        r := YaCompletado;
      } else {
        r := AyudaInicio;
      }
    }
  }
}
