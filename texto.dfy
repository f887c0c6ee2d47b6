/** `normalizar`, identical in both revisions of the skill
    (entrega5/lambda/index.js:77-82, entrega4/lambda/index.js:34-39): a missing
    string becomes empty, then it is lower-cased, put in canonical decomposition
    (NFD), and every combining mark U+0300 to U+036F is deleted. The three stages
    are modelled one by one. Case folding and canonical
    decomposition are modelled for ASCII and the Latin-1 letters only. */
module Texto {
  import opened Js

  /** A combining diacritical mark, the block U+0300 to U+036F that the regular expression removes. */
  predicate EsMarca(c: char) {
    '\U{0300}' <= c <= '\U{036F}'
  }

  /** Canonical decomposition (NFD) of one lower-case character: a precomposed Latin-1
      letter becomes its base letter followed by its combining mark. */
  function DescomponerChar(c: char): (r: seq<char>)
    ensures 1 <= |r| <= 2
    ensures |r| == 2 ==> IsAsciiLower(r[0]) && EsMarca(r[1])
    ensures |r| == 1 ==> r == [c]
    ensures !('\U{00E0}' <= c <= '\U{00FF}') ==> r == [c]
  {
    match c
    case 'à' => ['a', '\U{0300}']
    case 'á' => ['a', '\U{0301}']
    case 'â' => ['a', '\U{0302}']
    case 'ã' => ['a', '\U{0303}']
    case 'ä' => ['a', '\U{0308}']
    case 'å' => ['a', '\U{030A}']
    case 'ç' => ['c', '\U{0327}']
    case 'è' => ['e', '\U{0300}']
    case 'é' => ['e', '\U{0301}']
    case 'ê' => ['e', '\U{0302}']
    case 'ë' => ['e', '\U{0308}']
    case 'ì' => ['i', '\U{0300}']
    case 'í' => ['i', '\U{0301}']
    case 'î' => ['i', '\U{0302}']
    case 'ï' => ['i', '\U{0308}']
    case 'ñ' => ['n', '\U{0303}']
    case 'ò' => ['o', '\U{0300}']
    case 'ó' => ['o', '\U{0301}']
    case 'ô' => ['o', '\U{0302}']
    case 'õ' => ['o', '\U{0303}']
    case 'ö' => ['o', '\U{0308}']
    case 'ù' => ['u', '\U{0300}']
    case 'ú' => ['u', '\U{0301}']
    case 'û' => ['u', '\U{0302}']
    case 'ü' => ['u', '\U{0308}']
    case 'ý' => ['y', '\U{0301}']
    case 'ÿ' => ['y', '\U{0308}']
    case _ => [c]
  }

  /** Canonical decomposition of a lower-cased string. */
  function Descomponer(s: string): string
  {
    if s == [] then [] else DescomponerChar(s[0]) + Descomponer(s[1..])
  }

  /** Deletion of every combining mark. */
  function QuitarMarcas(s: string): string
  {
    if s == [] then [] else (if EsMarca(s[0]) then [] else [s[0]]) + QuitarMarcas(s[1..])
  }

  /** `normalizar(s)`; None stands for null or undefined. */
  function Normalizar(s: Option<string>): string
  {
    QuitarMarcas(Descomponer(ToLowerCase(s.GetOr(""))))
  }

  /** A character that `normalizar` leaves as it is. */
  predicate Normal(c: char) {
    LowerChar(c) == c && DescomponerChar(c) == [c] && !EsMarca(c)
  }

  // ---------------------------------------------------------------------
  // Each stage works character by character.

  lemma {:induction false} DescomponerConcat(a: string, b: string)
    ensures Descomponer(a + b) == Descomponer(a) + Descomponer(b)
  {
    if a == [] {
      assert a + b == b;
    } else {
      assert (a + b)[1..] == a[1..] + b;
      DescomponerConcat(a[1..], b);
    }
  }

  lemma {:induction false} QuitarMarcasConcat(a: string, b: string)
    ensures QuitarMarcas(a + b) == QuitarMarcas(a) + QuitarMarcas(b)
  {
    if a == [] {
      assert a + b == b;
    } else {
      assert (a + b)[1..] == a[1..] + b;
      QuitarMarcasConcat(a[1..], b);
    }
  }

  /** `normalizar` distributes over concatenation, so whitespace anywhere (leading or
      trailing included) is kept: unlike a trimming normaliser, it is a homomorphism. */
  lemma NormalizarConcat(a: string, b: string)
    ensures Normalizar(Some(a + b)) == Normalizar(Some(a)) + Normalizar(Some(b))
  {
    assert ToLowerCase(a + b) == ToLowerCase(a) + ToLowerCase(b);
    DescomponerConcat(ToLowerCase(a), ToLowerCase(b));
    QuitarMarcasConcat(Descomponer(ToLowerCase(a)), Descomponer(ToLowerCase(b)));
  }

  /** null and undefined normalise to the empty string, like `''`. */
  lemma NormalizarNulo()
    ensures Normalizar(None) == "" == Normalizar(Some(""))
  {
  }

  /** The normal form of one character, unfolded. */
  function NormalizarUno(c: char): string {
    QuitarMarcas(DescomponerChar(LowerChar(c)))
  }

  lemma QuitarMarcasUno(c: char)
    ensures QuitarMarcas([c]) == if EsMarca(c) then [] else [c]
  {
    assert [c][1..] == [];
  }

  lemma UnChar(c: char)
    ensures Normalizar(Some([c])) == NormalizarUno(c)
  {
    var l := LowerChar(c);
    assert Some([c]).GetOr("") == [c];
    assert ToLowerCase([c]) == [l];
    assert [l][1..] == [];
    assert Descomponer([l]) == DescomponerChar(l);
  }

  /** Normalising a string that starts with `c`. */
  lemma NormalizarCons(c: char, s: string)
    ensures Normalizar(Some([c] + s)) == NormalizarUno(c) + Normalizar(Some(s))
  {
    NormalizarConcat([c], s);
    UnChar(c);
  }

  /** Normalising one character gives at most one character, and that character is normal. */
  lemma NormalizarChar(c: char)
    ensures |NormalizarUno(c)| <= 1
    ensures forall i :: 0 <= i < |NormalizarUno(c)| ==> Normal(NormalizarUno(c)[i])
  {
    var l := LowerChar(c);
    LowerCharIdempotent(c);
    var d := DescomponerChar(l);
    if |d| == 2 {
      var b := d[0];
      assert d == [b] + [d[1]];
      QuitarMarcasConcat([b], [d[1]]);
      QuitarMarcasUno(b);
      QuitarMarcasUno(d[1]);
      assert NormalizarUno(c) == [b];
      assert DescomponerChar(b) == [b];
      assert Normal(b);
    } else {
      QuitarMarcasUno(l);
    }
  }

  /** The output of `normalizar` is lower-case, fully decomposed, and carries no mark
      from the range U+0300 to U+036F; it is never longer than the input. */
  lemma {:induction false} NormalizarEsNormal(s: string)
    ensures |Normalizar(Some(s))| <= |s|
    ensures forall i :: 0 <= i < |Normalizar(Some(s))| ==> Normal(Normalizar(Some(s))[i])
    ensures forall i :: 0 <= i < |Normalizar(Some(s))| ==> !EsMarca(Normalizar(Some(s))[i])
    ensures forall i :: 0 <= i < |Normalizar(Some(s))| ==> !IsAsciiUpper(Normalizar(Some(s))[i])
  {
    if s != [] {
      assert s == [s[0]] + s[1..];
      NormalizarCons(s[0], s[1..]);
      NormalizarChar(s[0]);
      NormalizarEsNormal(s[1..]);
      var r := Normalizar(Some(s));
      forall i | 0 <= i < |r| ensures !IsAsciiUpper(r[i]) {
        LowerCharIdempotent(r[i]);
      }
    }
  }

  /** A string of normal characters is its own normal form. */
  lemma {:induction false} NormalizarFijo(s: string)
    requires forall i :: 0 <= i < |s| ==> Normal(s[i])
    ensures Normalizar(Some(s)) == s
  {
    if s != [] {
      assert s == [s[0]] + s[1..];
      NormalizarCons(s[0], s[1..]);
      QuitarMarcasUno(s[0]);
      NormalizarFijo(s[1..]);
    }
  }

  /** `normalizar` is idempotent, so normalising both sides before `===` is a canonical comparison. */
  lemma NormalizarIdempotente(s: Option<string>)
    ensures Normalizar(Some(Normalizar(s))) == Normalizar(s)
  {
    NormalizarEsNormal(s.GetOr(""));
    NormalizarFijo(Normalizar(s));
  }

  /** A letter or a space without accent normalises to its lower-case form. */
  lemma NormalizarUnoSinAcento(c: char)
    requires IsAsciiUpper(c) || c == ' '
    ensures NormalizarUno(c) == [LowerChar(c)]
  {
    QuitarMarcasUno(LowerChar(c));
  }

  lemma NormalizarUnoEAguda()
    ensures NormalizarUno('\U{00C9}') == "e"
  {
    assert LowerChar('\U{00C9}') == '\U{00E9}';
    var d := DescomponerChar('\U{00E9}');
    assert d == ['e'] + ['\U{0301}'];
    QuitarMarcasConcat(['e'], ['\U{0301}']);
    QuitarMarcasUno('e');
    QuitarMarcasUno('\U{0301}');
  }

  /** `normalizar` does not trim: a trailing space survives, so an answer said with one
      never equals the normal form of the same answer without it. */
  lemma NormalizarNoRecorta(t: string)
    ensures Normalizar(Some(t + " ")) == Normalizar(Some(t)) + " "
    ensures Normalizar(Some(t + " ")) != Normalizar(Some(t))
  {
    NormalizarConcat(t, " ");
    NormalizarEspacio();
    assert |Normalizar(Some(t + " "))| == |Normalizar(Some(t))| + 1;
  }

  /** A space is its own normal form. */
  lemma NormalizarEspacio()
    ensures Normalizar(Some(" ")) == " "
  {
    NormalizarUnoSinAcento(' ');
    UnChar(' ');
  }
}
