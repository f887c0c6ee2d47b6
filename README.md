# Escape Room Creator: a Dafny model of the puzzle-session engine

Escape Room Creator is an Alexa skill about escape rooms. A teacher builds a game: a
sequence of puzzles, each with an answer, hints, an optional Caesar key and a time
limit. A student loads the game by its title and says "yes" to start each puzzle. The
student then answers by voice. The device's screen shows the puzzle and reports
when its countdown runs out.

The project models the game engine in three revisions and the record logic of the
store it uses:

- `Motor5` (entrega5/lambda/index.js) is the current engine. Each handler reads the
  session document named by the Alexa session attributes and mutates a copy in memory
  (`SesionLocal`). It writes the changed attributes back with `actualizarSesion`. When
  the game ends it stores a result and deletes the session. Every handler is a method
  over the store `Bd5.Db`, proved equal to a step function (`CargarPaso`, `SiPaso`,
  `ResolverPaso`, `TiempoAcabadoPaso`) on a snapshot of the session and result tables.
  `Propiedades5` proves what each step does, two invariants all steps keep (`Coherente`
  on each session's attributes, and `EnRango`: a started puzzle is in its game), and the
  cipher's round trip.
- `Motor4` (entrega4/lambda/index.js) is the earlier engine. Its state lives in the
  Alexa session attributes, the class `AtributosSesion`. An answer is checked against a
  list of accepted answers, the cipher keeps case, and the guards sit in each handler's
  `canHandle`. They are modelled as the dispatch function `Turno`, which follows the
  order in which the handlers are registered. `Propiedades4` states each handler's
  effect and an invariant `Turno` keeps.
- `Motor3` (entrega3/lambda/index.js) is the first version: three fixed spoken
  challenges, tracked by `estado` and `desafioActual` (class `Sesion3`). `Propiedades3`
  states the guard, the challenge switch, an invariant and two discrepancies.
- `Bd5` (entrega5/lambda/bd.js) is the store. DynamoDB tables are fields of `Db`.
  Sessions are a map from the key (userID, sesionID) to an attribute map. Users, games
  and results are sequences in scan order. It covers the record built by `crearSesion`,
  the `SET` update of `actualizarSesion` with its expression-building loop, the title
  filter, the duplicate-title check of `guardarJuego`, the defaults of
  `guardarResultado`, the role checks of register and login, and the student keys.
- `Js` holds the JavaScript semantics the code relies on: truthiness and `||`
  defaults, the sign-keeping `%`, and ASCII/Latin-1 case mapping. `Texto` holds
  `normalizar` (lower case, NFD, combining marks removed), shared by revisions 4 and 5.

Three things are parameters rather than computed: the current time
(`new Date().toISOString()`), fresh identifiers from `uuidv4`, and, for revision 4, the
title lookup in the store.

## Model

| member | source | states |
|---|---|---|
| Js.NumOr0 | entrega5/lambda/index.js:26 | the `x \|\| 0` of a stored counter is its number when the attribute holds one, and 0 otherwise |
| Js.OrValue | entrega5/lambda/bd.js:261-264 | `v \|\| d` is `v` when `v` is defined and truthy, and the default otherwise |
| Js.OrStr | entrega5/lambda/index.js:297-299 | `slot \|\| ''` is the slot when it is a non-empty string, and the default otherwise |
| Js.JsRem | entrega5/lambda/index.js:103 | JavaScript `%` has a result strictly between `-m` and `m`; it agrees with the mathematical remainder for non-negative operands and is never positive for negative ones |
| Js.RotacionInversa | entrega5/lambda/index.js:103 | for a letter offset and a non-negative key, shifting by the key and then by `26 - key % 26` gives back the offset, and the shifted offset stays in 0..25 |
| Js.ModDesplazado | entrega5/lambda/index.js:103 | adding a multiple of 26 does not change the remainder modulo 26 |
| Js.ToLowerCase | entrega5/lambda/index.js:79 | `toLowerCase` keeps the length and maps every character through the case fold |
| Js.ToUpperCase | entrega5/lambda/index.js:98 | `toUpperCase` keeps the length and maps every character through the upper-case map, which covers ASCII and the Latin-1 letters, 'ÿ' and 'µ' included |
| Js.NumeroDeTexto | entrega5/lambda/index.js:41 | `Number` of a string is 0 for the empty string, the non-negative value of a string of decimal digits, and NaN for any other string |
| Js.GeRawTexto | entrega5/lambda/index.js:41 | `"3" >= 2` and `"" >= 0` hold, while `"3" >= 4` and `"x" >= 0` do not |
| Js.LowerCharIdempotent | entrega5/lambda/index.js:79 | folding a character twice is folding it once, and the result is never an upper-case ASCII letter |
| Js.UpperCharIdempotent | entrega5/lambda/index.js:98 | upper-casing a character twice is upper-casing it once, and the result is never a lower-case ASCII letter |
| Js.UpperCharAscii | entrega5/lambda/index.js:98-102 | after upper-casing, a character is in A..Z exactly when it was an ASCII letter of either case |
| Js.ToUpperCaseIdempotent | entrega5/lambda/index.js:144-149 | the text upper-cased at 144 and again inside `cifradoCesar` is the same as upper-cased once |
| Js.ToLowerCaseIsLower | entrega5/lambda/index.js:79 | every character of a lower-cased string is a fixed point of the fold |
| Js.FiltrarExacto | entrega5/lambda/bd.js:167 | `Array.filter` keeps exactly the elements that satisfy the predicate, and never more elements than the input |
| Js.FiltrarConcat | entrega5/lambda/bd.js:167 | filtering a concatenation is concatenating the filtered parts |
| Js.FiltrarPrimero | entrega5/lambda/index.js:313 | the first element of a filter is the first input element that satisfies the predicate |
| Texto.DescomponerChar | entrega5/lambda/index.js:80 | NFD splits a Latin-1 accented lower-case letter into its base letter and one combining mark, and leaves every other character alone |
| Texto.DescomponerConcat | entrega5/lambda/index.js:80 | NFD works character by character |
| Texto.QuitarMarcasConcat | entrega5/lambda/index.js:81 | removing U+0300..U+036F works character by character |
| Texto.NormalizarConcat | entrega5/lambda/index.js:77-82 | `normalizar` of a concatenation is the concatenation of the parts' normal forms |
| Texto.NormalizarNulo | entrega5/lambda/index.js:78 | `normalizar` of null or undefined is the empty string, the same as of `''` |
| Texto.QuitarMarcasUno | entrega5/lambda/index.js:81 | a single character is removed exactly when it is a combining mark |
| Texto.UnChar | entrega5/lambda/index.js:77-82 | `normalizar` of one character is the normal form of that character |
| Texto.NormalizarCons | entrega5/lambda/index.js:77-82 | the normal form of a string is that of its first character followed by that of the rest |
| Texto.NormalizarChar | entrega5/lambda/index.js:77-82 | one character normalises to at most one character, and that character is in normal form |
| Texto.NormalizarEsNormal | entrega5/lambda/index.js:77-82 | the output is no longer than the input, has no combining mark and no upper-case ASCII letter, and every character is in normal form |
| Texto.NormalizarFijo | entrega4/lambda/index.js:34-39 | a string already in normal form is left unchanged |
| Texto.NormalizarIdempotente | entrega5/lambda/index.js:77-82 | normalising twice is normalising once |
| Texto.NormalizarUnoSinAcento | entrega5/lambda/index.js:79 | an ASCII capital or a space normalises to its lower-case form |
| Texto.NormalizarUnoEAguda | entrega5/lambda/index.js:79-81 | 'É' normalises to "e" |
| Texto.NormalizarNoRecorta | entrega5/lambda/index.js:77-82 | no whitespace is trimmed: a trailing space stays at the end of the normal form, so it never equals the normal form without the space |
| Texto.NormalizarEspacio | entrega5/lambda/index.js:79-81 | a space is its own normal form |
| Bd5.ClaveAlumno | entrega5/lambda/bd.js:93 | the student key is the three parts joined by two '#', as typed |
| Bd5.Capitalizar | entrega5/lambda/bd.js:277 | capitalising keeps the length, upper-cases the first character and lower-cases the rest |
| Bd5.ClaveResultados | entrega5/lambda/bd.js:277-281 | the lookup key joins the capitalised name, the course and the upper-cased group with '#' |
| Bd5.ClaveReporte | entrega5/lambda/bd.js:398-400 | the report key is the course, one '#', then the group character by character upper-cased |
| Bd5.JuegoPorID | entrega5/lambda/bd.js:173-183 | a falsy id gives `success: false` and no game without a lookup; otherwise success, and the game returned is a stored one with that id, and a stored id is always found |
| Bd5.NuevoResultado | entrega5/lambda/bd.js:255-265 | the result record has a fresh id; missing or falsy counters become 0; the other counters and the user are copied; with a non-empty clock both dates are set |
| Bd5.MezclarEfecto | entrega5/lambda/bd.js:221-239 | the `SET` merge writes every changed attribute with its new value and keeps every other attribute as it was |
| Bd5.Mezclar1 | entrega5/lambda/bd.js:225-228 | merging one change is one map update |
| Bd5.Mezclar2 | entrega5/lambda/bd.js:225-228 | merging two changes is two map updates in order |
| Bd5.Mezclar3 | entrega5/lambda/bd.js:225-228 | merging three changes is three map updates in order |
| Bd5.Mezclar4 | entrega5/lambda/bd.js:225-228 | merging four changes is four map updates in order |
| Bd5.MezclarConcat | entrega5/lambda/bd.js:225-228 | merging a concatenation of change sets is merging one set after the other |
| Bd5.Clausulas | entrega5/lambda/bd.js:226 | there is one `k = :k` clause per change, in the order written |
| Bd5.UnirAgregar | entrega5/lambda/bd.js:233 | `join(', ')` of a non-empty list with one more part is the join of the list, a comma and a space, and that part |
| Bd5.ConstruirExpresion | entrega5/lambda/bd.js:222-233 | the loop builds `SET ` followed by the clauses joined with commas, and a value map with exactly one placeholder per changed key bound to its value; the expression is exactly `SET ` when there are no changes |
| Bd5.MarcadorNuevo | entrega5/lambda/bd.js:227 | with distinct keys, no placeholder repeats an earlier one |
| Bd5.MarcadorInyectivo | entrega5/lambda/bd.js:227 | different attributes have different placeholders |
| Bd5.NombreDistinto | entrega5/lambda/bd.js:226 | different attributes have different names |
| Bd5.Db.constructor | entrega5/lambda/bd.js:11-14 | the store starts with four empty tables |
| Bd5.Db.RegistrarDocenteCoordinador | entrega5/lambda/bd.js:31-63 | a type other than docente or coordinador is refused without touching the store; an existing (type, user name) is refused; otherwise one account with the hashed password is appended; no other table changes |
| Bd5.Db.LoginDocenteCoordinador | entrega5/lambda/bd.js:66-89 | an invalid type is refused; for a valid type, "not found" holds exactly when no account has that type and user name; otherwise the first such account decides, giving success with its id and name exactly when the password matches its hash, and "wrong password" otherwise |
| Bd5.PersonalesPrimero | entrega5/lambda/bd.js:71-85 | the index query's first item is the first stored account of that type and user name |
| Bd5.Db.LoginAlumno | entrega5/lambda/bd.js:92-124 | always succeeds: the first student stored under the raw key is returned, or a new one is appended under that key |
| Bd5.Db.ObtenerResultadosAlumno | entrega5/lambda/bd.js:272-311 | "not found" exactly when no student is stored under the normalised key; otherwise the results returned are exactly the stored results whose `userID` is that of the first such student |
| Bd5.Db.GuardarJuego | entrega5/lambda/bd.js:135-162 | a game whose title is exactly that of a stored one is refused without writing; otherwise the copied fields are appended under the fresh id; no other table changes |
| Bd5.Db.CrearSesion | entrega5/lambda/bd.js:188-207 | the session record is stored under (userID, sesionID), replacing nothing else |
| Bd5.Db.ObtenerSesion | entrega5/lambda/bd.js:211-218 | the stored record is returned exactly when the key is present, and null otherwise |
| Bd5.Db.ActualizarSesion | entrega5/lambda/bd.js:221-240 | an empty change set writes nothing; otherwise the record under the key, or a new one holding just the key, is merged with the changes, stored and returned |
| Bd5.Db.EliminarSesion | entrega5/lambda/bd.js:243-250 | exactly that key is removed from the session table |
| Bd5.Db.GuardarResultado | entrega5/lambda/bd.js:255-269 | exactly one result record, the one `NuevoResultado` builds, is appended |
| Bd5.SesionNuevaCoherente | entrega5/lambda/bd.js:188-204 | a fresh session is at puzzle 0 with both flags false, every counter 0, both game dates null, the game id as given, and the key its own attributes name |
| Bd5.BuscarTituloExacto | entrega5/lambda/bd.js:165-170 | the title search returns exactly the stored games whose lower-cased title equals the argument |
| Bd5.BuscarTituloMayuscula | entrega5/lambda/bd.js:167 | the argument is not lower-cased here, so a title with an upper-case letter finds nothing |
| Bd5.ClavesCoinciden | entrega5/lambda/bd.js:93 | the stored and the looked-up student keys agree exactly when the name is already capitalised and the group already upper-case |
| Bd5.ClaveAlumnoMinuscula | entrega5/lambda/bd.js:277-281 | "ana", "1", "a" is stored as "ana#1#a" but looked up as "Ana#1#A" |
| Bd5.LoginAlumnoLocalizable | entrega5/lambda/bd.js:272-296 | a student stored with a capitalised name and an upper-case group is found by the result lookup |
| Motor5.SesionActual | entrega5/lambda/index.js:7-22 | the session is found exactly when both attributes are set and non-empty and the store holds that key |
| Motor5.PuzleActualDe | entrega5/lambda/index.js:85-89 | there is a current puzzle exactly when a game with puzzles is given and `puzleActual \|\| 0` is in range, and it is the puzzle at that index |
| Motor5.Cifrado | entrega5/lambda/index.js:97-109 | the output has the input's length, and each character is the upper-cased input character, shifted by the key with JavaScript `%` when it is in A..Z |
| Motor5.CifradoCesar | entrega5/lambda/index.js:97-109 | the accumulating loop computes `Cifrado` |
| Motor5.SesionLocal.constructor | entrega5/lambda/index.js:16 | the in-memory session is a copy of the stored record |
| Motor5.SesionLocal.AvanzarPuzle | entrega5/lambda/index.js:25-34 | the in-memory session becomes `Avanzado` of the old one |
| Motor5.FinalizarJuego | entrega5/lambda/index.js:49-62 | a result built from the in-memory session is appended and the session is deleted |
| Motor5.PedirContinuar | entrega5/lambda/index.js:177-187 | a finished game is finalised; otherwise the handler asks to continue and writes nothing |
| Motor5.CargarEscapeRoom | entrega5/lambda/index.js:284-337 | the handler's writes and response are those of `CargarPaso` |
| Motor5.IniciarPuzleActual | entrega5/lambda/index.js:113-167 | the handler's writes and response are those of `IniciarPaso` |
| Motor5.Si | entrega5/lambda/index.js:544-570 | the handler's writes and response are those of `SiPaso` |
| Motor5.ResolverPuzle | entrega5/lambda/index.js:586-620 | the handler's writes and response are those of `ResolverPaso` |
| Motor5.Acierto | entrega5/lambda/index.js:629-647 | the correct-answer branch's writes and response are those of `AciertoPaso` |
| Motor5.Fallo | entrega5/lambda/index.js:649-703 | the wrong-answer branch's writes and response are those of `FalloPaso` |
| Motor5.TiempoAcabado | entrega5/lambda/index.js:783-829 | the timeout branch's writes and response are those of `TiempoAcabadoPaso` |
| Propiedades5.EscribirCarga | entrega5/lambda/index.js:315-325 | the load's change set is nine map updates |
| Propiedades5.EscribirInicio | entrega5/lambda/index.js:137-141 | the puzzle start's change set sets both flags and resets the failures |
| Propiedades5.EscribirAcierto | entrega5/lambda/index.js:634-639 | the correct-answer change set copies four attributes of the in-memory session |
| Propiedades5.EscribirAvance | entrega5/lambda/index.js:673-678 | the forced-advance change set copies four attributes of the in-memory session |
| Propiedades5.EscribirFallo | entrega5/lambda/index.js:652-655 | the failure change set copies both failure counters |
| Propiedades5.AvanzarPuzleEfecto | entrega5/lambda/index.js:25-34 | the index becomes old + 1 (absent counts as 0); both flags are false and the failures 0; the clear count goes up by one exactly when the puzzle was completed; every other attribute, the failure total included, is kept |
| Propiedades5.NuevaSesionCoherente | entrega5/lambda/bd.js:188-204 | a newly created session satisfies the invariant `Coherente` |
| Propiedades5.CerrarCoherente | entrega5/lambda/index.js:49-62 | ending a game keeps every stored session coherent |
| Propiedades5.PedirCoherente | entrega5/lambda/index.js:177-187 | `pedirContinuar` keeps every stored session coherent |
| Propiedades5.CargarCoherente | entrega5/lambda/index.js:284-325 | loading keeps every stored session coherent |
| Propiedades5.SiCoherente | entrega5/lambda/index.js:544-570 | "yes" keeps every stored session coherent |
| Propiedades5.AciertoCoherente | entrega5/lambda/index.js:629-647 | a correct answer keeps every stored session coherent |
| Propiedades5.FalloCoherente | entrega5/lambda/index.js:649-703 | a wrong answer keeps every stored session coherent |
| Propiedades5.ResolverCoherente | entrega5/lambda/index.js:586-703 | answering keeps every stored session coherent |
| Propiedades5.TiempoAcabadoCoherente | entrega5/lambda/index.js:783-829 | the timeout keeps every stored session coherent |
| Propiedades5.NuevaSesionEnRango | entrega5/lambda/bd.js:188-204 | a new session has no puzzle started, so it satisfies the second invariant `EnRango`: a started puzzle's game is in the games table and its index is in range |
| Propiedades5.CerrarEnRango | entrega5/lambda/index.js:49-62 | ending a game keeps every started puzzle in range |
| Propiedades5.PedirEnRango | entrega5/lambda/index.js:177-187 | `pedirContinuar` keeps every started puzzle in range |
| Propiedades5.AvanceEnRango | entrega5/lambda/index.js:25-34 | writing an advance, which clears `puzleIniciado`, keeps every started puzzle in range |
| Propiedades5.CargarEnRango | entrega5/lambda/index.js:284-325 | loading a game keeps every started puzzle in range |
| Propiedades5.SiEnRango | entrega5/lambda/index.js:544-570 | "yes" starts a puzzle only where one exists at the current index, so every started puzzle stays in range |
| Propiedades5.AciertoEnRango | entrega5/lambda/index.js:629-647 | a correct answer keeps every started puzzle in range |
| Propiedades5.FalloEnRango | entrega5/lambda/index.js:649-703 | a wrong answer keeps every started puzzle in range |
| Propiedades5.ResolverEnRango | entrega5/lambda/index.js:586-703 | answering keeps every started puzzle in range |
| Propiedades5.TiempoAcabadoEnRango | entrega5/lambda/index.js:783-829 | the timeout keeps every started puzzle in range |
| Propiedades5.JuegoPorIDAmpliado | entrega5/lambda/bd.js:173-183 | a game found by id is still the one found after another game is appended |
| Propiedades5.GuardarJuegoEnRango | entrega5/lambda/bd.js:135-162 | saving a game, the only change to the games table, keeps every started puzzle in range |
| Propiedades5.IniciadoEnJuego | entrega5/lambda/index.js:590-618 | under both invariants, a session with a puzzle started has its game found and its puzzle at the current index, so an answer is compared against it |
| Propiedades5.CargaEscrita | entrega5/lambda/index.js:315-325 | after a load the session holds the game id, puzzle 0, both flags false, all three counters 0, the start time and a null end time, with its key, type and creation date kept |
| Propiedades5.CargarEfecto | entrega5/lambda/index.js:286-325 | with no session, or no game whose lower-cased title matches, nothing is written; otherwise the first such game is loaded into that session only, and it is a stored game with that title |
| Propiedades5.SiEfecto | entrega5/lambda/index.js:546-570 | with no game, or a puzzle already started, nothing is written; a finished game stores its result and deletes the session; otherwise the current puzzle is shown and the session is marked started with its failures reset |
| Propiedades5.SiDosVeces | entrega5/lambda/index.js:557-562 | a second "yes" after a puzzle was shown answers that one is running and writes nothing |
| Propiedades5.ResolverGuarda | entrega5/lambda/index.js:590-602 | with no game, or no puzzle with both flags set, an answer writes nothing |
| Propiedades5.AciertoEfecto | entrega5/lambda/index.js:629-647 | a correct answer moves the index and the clear count up by one and clears both flags; it asks to continue when puzzles remain and otherwise stores the result and deletes the session |
| Propiedades5.ResolverAcierto | entrega5/lambda/index.js:620-647 | the same, for the whole answer handler, in a session with a puzzle running |
| Propiedades5.FalloSinAvance | entrega5/lambda/index.js:650-669 | a wrong answer counts one failure on the puzzle and one in the total; failure f gives hint f while hints last, then a retry while f is below the budget, with nothing else written |
| Propiedades5.FalloConAvance | entrega5/lambda/index.js:670-703 | once hints and budget are spent the puzzle is skipped without counting a clear; the game either continues or stores its result and deletes the session |
| Propiedades5.ResolverFallo | entrega5/lambda/index.js:620-650 | for a running puzzle, the answer handler on a wrong answer is the wrong-answer step |
| Propiedades5.FallosAcotados | entrega5/lambda/index.js:660-670 | after a hint or a retry, the stored puzzle failures are at most the number of hints or at most the budget minus one |
| Propiedades5.TiempoAcabadoEfecto | entrega5/lambda/index.js:783-829 | with a game loaded, whether or not a puzzle is running, the index moves up by exactly one and the clear count is unchanged; at the end the stored result carries the session's totals and the session is deleted |
| Propiedades5.DobleAvance | entrega5/lambda/index.js:633-798 | a correct answer followed by a late timeout report moves the index up by two while the clear count moves up by one |
| Propiedades5.TiempoCorregidoUnAvance | entrega5/lambda/index.js:783-798 | with the corrected timeout, the same late report writes nothing, so the index has moved up by one |
| Propiedades5.TiempoCorregidoSoloActivo | entrega5/lambda/index.js:783-798 | the corrected timeout agrees with the code as written while the timer runs, and writes nothing otherwise |
| Propiedades5.CesarCharInverso | entrega5/lambda/index.js:102-103 | a shifted upper-case character stays upper-case, and shifting back by `26 - key % 26` restores it |
| Propiedades5.CifradoInverso | entrega5/lambda/index.js:97-109 | for a key of zero or more, enciphering again with `26 - key % 26` gives the upper-cased input |
| Propiedades5.CifradoLetras | entrega5/lambda/index.js:102-106 | for a key of zero or more, an output character is a capital letter exactly when the upper-cased input character was |
| Propiedades5.CifradoClaveNegativa | entrega5/lambda/index.js:103 | with key -1, "A" becomes "@": a negative key is not reduced modulo 26 to a letter |
| Propiedades5.Roles | entrega5/lambda/index.js:241-486 | a coordinator passes every guard a teacher passes; a request with no session, or from a student, passes none |
| Motor4.EntreLexPrimero | entrega4/lambda/index.js:59-61 | a string between two one-character strings in string order starts with a character between them |
| Motor4.CifradoCesar | entrega4/lambda/index.js:55-68 | the loop over the elements of `texto` computes `Cifrado4` |
| Motor4.Caracteres | entrega4/lambda/index.js:57-58 | indexing a string gives one-character strings, one per character |
| Motor4.PuzleActualDe4 | entrega4/lambda/index.js:42-47 | there is a current puzzle exactly when a game is loaded and `puzleActual \|\| 0` is in range, and it is the puzzle at that index |
| Motor4.Aceptadas | entrega4/lambda/index.js:307 | the accepted answers are the normal forms of the answer list (empty when it is missing), element by element |
| Motor4.AtributosSesion.constructor | entrega4/lambda/index.js:194 | a new session has no attribute set |
| Motor4.AtributosSesion.AvanzarPuzle | entrega4/lambda/index.js:7-12 | the attributes become `Avanzado4` of the old ones |
| Motor4.AtributosSesion.FinalizarJuego | entrega4/lambda/index.js:21-31 | the game and the index become null, and the response ends the session |
| Motor4.AtributosSesion.IniciarPuzleActual | entrega4/lambda/index.js:72-106 | the attributes and the response are those of `IniciarPaso4` |
| Motor4.AtributosSesion.PedirContinuar | entrega4/lambda/index.js:108-116 | the attributes and the response are those of `PedirPaso4` |
| Motor4.AtributosSesion.CargarEscapeRoom | entrega4/lambda/index.js:219-256 | the attributes and the response are those of `CargarPaso4` |
| Motor4.AtributosSesion.Si | entrega4/lambda/index.js:274-288 | the attributes and the response are those of `SiPaso4` |
| Motor4.AtributosSesion.IntentSinJuego | entrega4/lambda/index.js:201-211 | it answers "no game" to "yes" and "no puzzle" to an answer, and modifies nothing |
| Motor4.AtributosSesion.ResolverPuzle | entrega4/lambda/index.js:299-352 | the attributes and the response are those of `ResolverPaso4` |
| Motor4.AtributosSesion.TiempoAcabado | entrega4/lambda/index.js:366-382 | the attributes and the response are those of `TiempoPaso4` |
| Motor4.AtributosSesion.Atender | entrega4/lambda/index.js:576-589 | a request is handled by the first registered handler that accepts it, as `Turno` states |
| Propiedades4.AvanzarPuzleEfecto4 | entrega4/lambda/index.js:7-12 | the index goes up by one (null counts as 0, undefined gives NaN); both flags and the failures are cleared; the game and the user are kept |
| Propiedades4.EntreLexUno | entrega4/lambda/index.js:59 | a one-character string is between "A" and "Z" in string order exactly when its character is |
| Propiedades4.PasoCesarUno | entrega4/lambda/index.js:58-65 | on a one-character string the loop step is the character cipher |
| Propiedades4.CifradoCaracteres | entrega4/lambda/index.js:55-68 | on a string the cipher keeps the length and works character by character |
| Propiedades4.CesarChar4Caso | entrega4/lambda/index.js:59-65 | for a key of zero or more the cipher keeps case: A..Z stays in A..Z, a..z stays in a..z, and any other character is unchanged |
| Propiedades4.CesarChar4Inverso | entrega4/lambda/index.js:59-65 | for a key of zero or more, shifting back by `26 - key % 26` restores the character |
| Propiedades4.CifradoInverso4 | entrega4/lambda/index.js:55-68 | for a key of zero or more, enciphering again with `26 - key % 26` gives back the input string |
| Propiedades4.CifradoClaveNegativa4 | entrega4/lambda/index.js:62 | with key -1, "a" becomes "`" |
| Propiedades4.MensajeArrayComoEscrito | entrega4/lambda/index.js:82-87 | as written, the answer array ["hola"] with key 3 is shown as "k" |
| Propiedades4.MensajeCorregidoDescifrable | entrega4/lambda/index.js:82-87 | the corrected message enciphers the first answer: it has the answer's length and deciphers back to it |
| Propiedades4.MensajeCorregidoHola | entrega4/lambda/index.js:82-87 | the corrected message for ["hola"] with key 3 is "krod" |
| Propiedades4.AciertaSiiMiembro | entrega4/lambda/index.js:305-312 | an answer is correct exactly when its normal form equals the normal form of one accepted answer, and a puzzle without answers accepts nothing |
| Propiedades4.Guardas | entrega4/lambda/index.js:189-211 | "yes" with no game, and an answer with no game or no started puzzle, get guidance and change nothing; the answer handler is reached only with a game and both flags set |
| Propiedades4.CargarEfecto4 | entrega4/lambda/index.js:219-244 | without a logged-in user or with an unknown title nothing changes; otherwise the first game found is loaded at puzzle 0 with both flags and the failures cleared, and the user is kept |
| Propiedades4.SiEfecto4 | entrega4/lambda/index.js:274-288 | with a game loaded: a started puzzle is not restarted; a finished game is finalised; otherwise the puzzle is shown and both flags set, with the failures left as they were |
| Propiedades4.SiDosVeces4 | entrega4/lambda/index.js:276-283 | a second "yes" after a puzzle was shown answers that one is running and changes nothing |
| Propiedades4.AciertoEfecto4 | entrega4/lambda/index.js:312-315 | a correct answer advances; the game is finalised exactly when that was the last puzzle, and otherwise it asks to continue |
| Propiedades4.FalloEfecto4 | entrega4/lambda/index.js:316-345 | a wrong answer counts one failure; failure f gives hint f while hints last, then a retry below the budget, then an advance that keeps the game loaded and ends the session at the last puzzle |
| Propiedades4.SinPresupuesto4 | entrega4/lambda/index.js:320-335 | with no budget on the game, the first wrong answer after the last hint advances |
| Propiedades4.TiempoEfecto4 | entrega4/lambda/index.js:366-381 | the timeout checks nothing: it always advances, never clears the game, and ends the session exactly when the game is then over |
| Propiedades4.FinSinFinalizar | entrega4/lambda/index.js:338-342 | the ends by failures or by time leave the game loaded in the attributes but close the Alexa session; a new session starts empty, and there "yes" finds no game and changes nothing |
| Propiedades4.SesionVaciaCoherente | entrega4/lambda/index.js:194-196 | a new session satisfies the invariant `Coherente4` |
| Propiedades4.TurnoCoherente | entrega4/lambda/index.js:576-589 | every request keeps the attributes coherent |
| Propiedades4.SiempreManejado | entrega4/lambda/index.js:291-302 | in coherent attributes every answer finds a handler, and the answer handler always finds its puzzle |
| Motor3.Sesion3.constructor | entrega3/lambda/index.js:72 | a new session has neither attribute set |
| Motor3.Sesion3.IniciarJuego | entrega3/lambda/index.js:22-26 | the attributes and the response are those of `IniciarPaso3` |
| Motor3.Sesion3.ResolverPuzzle | entrega3/lambda/index.js:71-137 | the attributes and the response are those of `ResolverPaso3` |
| Motor3.Sesion3.Fallback | entrega3/lambda/index.js:145-161 | the fallback's response is `FallbackComoEscrito` of the attributes |
| Motor3.Sesion3.AyudaIntent | entrega3/lambda/index.js:190-205 | the help handler's response is `Ayuda` of the attributes |
| Propiedades3.IniciarEfecto3 | entrega3/lambda/index.js:23-26 | starting puts any state, a finished game included, at challenge 1 of a game being played |
| Propiedades3.GuardaResolver3 | entrega3/lambda/index.js:78-84 | outside `'jugando'` an answer gets guidance and changes nothing |
| Propiedades3.ResolverEfecto3 | entrega3/lambda/index.js:86-122 | at challenge n, solving challenge 1 or 2 moves on by one and solving challenge 3 sets `'completado'`; a wrong answer changes nothing and gives that challenge's hint |
| Propiedades3.NuncaTermina3 | entrega3/lambda/index.js:76-136 | neither the start nor any answer ends the session |
| Propiedades3.InicialInv3 | entrega3/lambda/index.js:23 | the initial attributes satisfy `Inv3` |
| Propiedades3.PasosInv3 | entrega3/lambda/index.js:86-127 | starting and answering keep `Inv3`; an answer never lowers the challenge, and changes `estado` only by winning |
| Propiedades3.CompletadoAbsorbente | entrega3/lambda/index.js:78-115 | once the third challenge is solved, every further answer is rejected and changes nothing |
| Propiedades3.MayusculasAceptadas | entrega3/lambda/index.js:73-89 | "MIRO LA PIZARRA" solves challenge 1, because the answer is lower-cased |
| Propiedades3.FallbackTrasEscapar | entrega3/lambda/index.js:155 | as written, after winning the fallback answers "not understood" while the help handler answers "already completed" |
| Propiedades3.FallbackCorregidoCoincide | entrega3/lambda/index.js:151-161 | the corrected fallback recognises a finished game exactly when the help handler does, and agrees with the code as written while playing |
| Propiedades3.MensajeEsHolaMundo | entrega3/lambda/index.js:39-44 | the displayed message is "H O L A   M U N D O" shifted by 7, the key the hint gives |
| Propiedades3.HolaMundoRechazado | entrega3/lambda/index.js:88-96 | as written, the decoded message "hola mundo" is answered with the hint and stays at challenge 1 |
| Propiedades3.HolaMundoCorregido | entrega3/lambda/index.js:88 | the corrected check accepts the decoded message in any case and rejects "hola" alone |

## Left out

- Alexa SDK plumbing is not modelled. Request-type dispatch, response text, SSML, reprompts, screen directives and `tienePantalla` are left out. Responses are a tag datatype. Hints are returned whether or not the device has a screen.
- DynamoDB calls are map and sequence operations. A `put` under a fresh id appends. Scan order is the order of the sequence. The `try/catch` paths, which answer with an error and write nothing further, are left out. So are a missing table and a rejected `SET ` expression, modelled as "nothing written".
- Password hashing is an injective `Hash` constructor, so `bcrypt.compare` is equality. `uuidv4` identifiers and `new Date().toISOString()` timestamps are parameters.
- `calcularSegundos`, `generarReporteClase` and `listarJuegos` are left out. Their date parsing and floating-point averages are not modelled. `obtenerReportesClase` is modelled only by its key (`Bd5.ClaveReporte`).
- `normalizar` and the case maps cover ASCII and Latin-1 only. Upper case covers the Latin-1 letters whose upper case is one character, 'ÿ' to 'Ÿ' and 'µ' to 'Μ' included. Lower case covers ASCII and Latin-1 capitals, and NFD covers the Latin-1 accented letters. Full Unicode tables and characters outside Latin-1 are outside the model.
- Js.ToUpperCase: 'ß' stays 'ß', whereas JavaScript gives the two characters "SS". The model keeps upper-casing length-preserving.
- Js.GeRaw: a string compares by its value only when it is empty or all ASCII digits. Other strings that JavaScript's `Number` accepts compare false here: surrounding whitespace, a sign, a decimal point, an exponent, or a hexadecimal or binary prefix.
- Bd5.Puzle: `Number(claveCifrado) || 0` (entrega5/lambda/index.js:147, entrega4/lambda/index.js:86) is an integer in the model. A fractional or infinite key is not modelled.
- Js.NumOr0: a stored counter that is not a number (a string, say) reads as 0. In JavaScript, `+ 1` on a string would concatenate instead.
- The other handlers are left out because they hold no game logic. For entrega5 these are Launch, CrearNuevoJuego, ObtenerResultadosAlumno, the report intents, CerrarSesion, Help, Stop, Fallback and the login and register branches of the HTML message handler. For entrega4 they are Launch with its login, CrearNuevoJuego and the login and register messages. For entrega3 they are Launch and CancelAndStop. Only their role guards (`Motor5.EsDocenteOCoordinador`, `Motor5.EsCoordinador`) and the store calls they make are modelled.
- Revision 4 does not model the end of an Alexa session inside `Turno`. A response that closes it (`Motor4.CierraSesion`) drops the attributes, so the next request starts from `SESION_VACIA`; `Propiedades4.FinSinFinalizar` states that.
- True concurrency between the screen's timer and voice answers is not modelled. Only sequential interleavings are, such as an answer followed by a late timeout on the same session.
- Revision 4 looks games up by title with `db.buscarJuegoPorTitulo`, but entrega4/lambda/bd.js does not define it: that file exports only registering and login. The lookup is therefore the parameter `buscar` of the load step. entrega4/lambda/bd.js is not otherwise part of this model.
- In revision 4, `juego.puzles` is taken to be an array, since the editor always sends one. `fallosPuzle` is a natural number. Both flags are booleans, and an undefined flag reads as false.
- In revision 4 the editor saves the budget under a differently spelled attribute (`fallosmaximospuzle`). The engine therefore reads it as undefined, so the budget is an optional value. `Propiedades4.SinPresupuesto4` states what happens without one.
- In revision 5 a session holding non-numeric counters is handled by the step functions as the code does (through `NumOr0`). Some effect lemmas are stated only for sessions satisfying `Coherente`:
  - Propiedades5.SiEfecto: the puzzle-start case is stated only for a coherent session.
  - Propiedades5.AciertoEfecto, Propiedades5.ResolverAcierto: stated only for a coherent session, so stored counters are numbers.
  - Propiedades5.FalloSinAvance, Propiedades5.FalloConAvance, Propiedades5.FallosAcotados: stated only for a coherent session.
  - Propiedades5.TiempoAcabadoEfecto: stated only for a coherent session.
- Bd5.Db.RegistrarDocenteCoordinador: the success response carries the name as well as the id. In the code, registration answers with the id only. The response shape is shared with login.
- Three behaviours of the code a reader may not expect:
  - `normalizar` does not trim whitespace (`Texto.NormalizarNoRecorta`).
  - A wrong answer gives hints before the budget is consulted, so the failure bound is "at most the hints, or below the budget" (`Propiedades5.FallosAcotados`).
  - A negative Caesar key yields characters that are not letters (`Propiedades5.CifradoClaveNegativa`).

## Findings

| source | as written | input that shows it | evidently intended | confidence | as-written member | corrected member |
|---|---|---|---|---|---|---|
| entrega5/lambda/index.js:783-798 | the timeout branch checks only that a game is loaded, not that the puzzle's timer is running | a correct answer at puzzle m, then a `tiempo_acabado` report from the screen for that puzzle: the index becomes m + 2, with one clear counted | a timeout advances only a puzzle whose timer is running | high, not executed | Propiedades5.DobleAvance | Motor5.TiempoAcabadoCorregido |
| entrega4/lambda/index.js:82-87 | the answer array itself is passed to `cifradoCesar`, whose loop then treats each answer as one character | a `cifrado-cesar` puzzle with answers ["hola"] and key 3 shows "k" | the (first) answer string is enciphered, showing "krod" | high, not executed | Propiedades4.MensajeArrayComoEscrito | Motor4.MensajeCorregido |
| entrega3/lambda/index.js:155 | the fallback tests `estado === 'terminado'`, a value nothing assigns; winning sets `'completado'` (line 115) | solve all three challenges, then say something unrecognised: "not understood, say start game" | the fallback recognises `'completado'`, as the help handler does (line 199) | high, not executed | Propiedades3.FallbackTrasEscapar | Motor3.FallbackCorregido |
| entrega3/lambda/index.js:88 | challenge 1 accepts only answers containing "miro" and "pizarra" | the message shown (line 44) is HOLA MUNDO shifted by 7, the key the hint names (days of the week, line 96), and the clue is the phrase every programming language starts with (line 39); answering "hola mundo" gets the hint | challenge 1 accepts the decoded message | medium, not executed | Propiedades3.HolaMundoRechazado | Motor3.ResuelvePrimeroCorregido |
