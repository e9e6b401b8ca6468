/** String operations the pages and the service rely on, as JavaScript defines
    them: whitespace trimming, lower-casing, substring search, splitting on a
    separator, decimal rendering of numbers and the default string order of
    `Array.prototype.sort`. */
module Texto {

  /** The characters JavaScript's `String.prototype.trim` removes: the
      WhiteSpace and LineTerminator code points of ECMAScript. */
  predicate EhEspaco(c: char) {
    c == ' ' || c == '\t' || c == '\n' || c == '\U{B}' || c == '\U{C}' || c == '\r'
    || c == '\U{A0}' || c == '\U{1680}' || ('\U{2000}' <= c <= '\U{200A}')
    || c == '\U{2028}' || c == '\U{2029}' || c == '\U{202F}' || c == '\U{205F}'
    || c == '\U{3000}' || c == '\U{FEFF}'
  }

  /** A string made of whitespace only (the empty string included). */
  predicate Branco(s: string) {
    forall k | 0 <= k < |s| :: EhEspaco(s[k])
  }

  /** The position where the leading whitespace from `i` on ends. */
  function InicioDesde(s: string, i: nat): (j: nat)
    requires i <= |s|
    ensures i <= j <= |s|
    ensures forall k | i <= k < j :: EhEspaco(s[k])
    ensures j < |s| ==> !EhEspaco(s[j])
    decreases |s| - i
  {
    if i < |s| && EhEspaco(s[i]) then InicioDesde(s, i + 1) else i
  }

  /** The position where the trailing whitespace before `j` starts, not
      going below `i`. */
  function FimAte(s: string, i: nat, j: nat): (f: nat)
    requires i <= j <= |s|
    ensures i <= f <= j
    ensures forall k | f <= k < j :: EhEspaco(s[k])
    ensures f > i ==> !EhEspaco(s[f - 1])
    decreases j
  {
    if j > i && EhEspaco(s[j - 1]) then FimAte(s, i, j - 1) else j
  }

  /** Where the trimmed part of a string starts. */
  function InicioDoTrim(s: string): (i: nat)
    ensures i <= |s|
  {
    InicioDesde(s, 0)
  }

  /** `s.trim()`: what remains between the leading and the trailing whitespace. */
  function Trim(s: string): (r: string)
    ensures |r| <= |s|
    ensures r == [] <==> Branco(s)
  {
    var i := InicioDoTrim(s);
    var f := FimAte(s, i, |s|);
    var r := s[i..f];
    if r == [] then
      assert Branco(s) by {
        forall k | 0 <= k < |s| ensures EhEspaco(s[k]) {
          assert k < i || f <= k;
        }
      }
      r
    else
      assert r[0] == s[i];
      r
  }

  /** The trimmed form neither starts nor ends with whitespace. */
  lemma TrimPontas(s: string)
    ensures var r := Trim(s); r == [] || (!EhEspaco(r[0]) && !EhEspaco(r[|r| - 1]))
  {
    var i := InicioDoTrim(s);
    var f := FimAte(s, i, |s|);
    var r := s[i..f];
    if r != [] {
      assert r[0] == s[i] && r[|r| - 1] == s[f - 1];
    }
  }

  /** Trimming keeps a slice of the string: the result sits in the input
      where the leading whitespace ends, and only whitespace lies before and
      after it. */
  lemma TrimFatia(s: string)
    ensures OcorreEm(s, Trim(s), InicioDoTrim(s))
    ensures Branco(s[..InicioDoTrim(s)])
    ensures InicioDoTrim(s) + |Trim(s)| <= |s| && Branco(s[InicioDoTrim(s) + |Trim(s)|..])
  {
    var i := InicioDoTrim(s);
    var f := FimAte(s, i, |s|);
    assert Trim(s) == s[i..f];
    assert forall k | 0 <= k < |s[f..]| :: s[f..][k] == s[f + k];
    assert forall k | 0 <= k < |s[..i]| :: s[..i][k] == s[k];
  }

  /** A character absent from a string is absent from its trimmed form. */
  lemma TrimSemCaractere(s: string, c: char)
    requires c !in s
    ensures c !in Trim(s)
  {
    var i, f := InicioDoTrim(s), FimAte(s, InicioDoTrim(s), |s|);
    forall k | 0 <= k < |Trim(s)| ensures Trim(s)[k] != c {
      assert Trim(s)[k] == s[i + k];
    }
  }

  /** Trimming twice is trimming once. */
  lemma TrimIdempotente(s: string)
    ensures Trim(Trim(s)) == Trim(s)
  {
    var t := Trim(s);
    TrimPontas(s);
    if t != [] {
      assert InicioDoTrim(t) == 0;
      assert FimAte(t, 0, |t|) == |t|;
    }
  }

  /** Lower-case mapping of `toLowerCase` on the Basic Latin and Latin-1
      letters (A-Z and the accented capitals U+00C0..U+00DE except U+00D7);
      every other character is left as it is. */
  function Minuscula(c: char): (r: char)
    ensures 'A' <= c <= 'Z' ==> r == "abcdefghijklmnopqrstuvwxyz"[c as int - 'A' as int]
    ensures '\U{C0}' <= c <= '\U{DE}' && c != '\U{D7}' ==> r == (c as int + 0x20) as char
    ensures !('A' <= c <= 'Z') && !('\U{C0}' <= c <= '\U{DE}' && c != '\U{D7}') ==> r == c
  {
    if 'A' <= c <= 'Z' || ('\U{C0}' <= c <= '\U{DE}' && c != '\U{D7}') then
      (c as int + 32) as char
    else c
  }

  /** `s.toLowerCase()`, character by character. */
  function Minusculas(s: string): (r: string)
    ensures |r| == |s|
    ensures forall k | 0 <= k < |s| :: r[k] == Minuscula(s[k])
  {
    if s == [] then [] else [Minuscula(s[0])] + Minusculas(s[1..])
  }

  /** Lower-casing a lower-cased string changes nothing. */
  lemma {:induction false} MinusculasIdempotente(s: string)
    ensures Minusculas(Minusculas(s)) == Minusculas(s)
  {
    var m := Minusculas(s);
    forall k | 0 <= k < |s| ensures Minuscula(m[k]) == m[k] {
    }
  }

  /** `s.includes(t)`: `t` occurs in `s` as a contiguous block. */
  predicate Contem(s: string, t: string)
    decreases |s|
  {
    |t| <= |s| && (s[..|t|] == t || Contem(s[1..], t))
  }

  /** `t` sits in `s` at position `i`. */
  predicate OcorreEm(s: string, t: string, i: int) {
    0 <= i <= |s| - |t| && s[i..i + |t|] == t
  }

  /** An occurrence at a position makes `Contem` hold. */
  lemma {:induction false} ContemDePosicao(s: string, t: string, i: int)
    requires OcorreEm(s, t, i)
    ensures Contem(s, t)
    decreases i
  {
    if i > 0 {
      var u := s[1..];
      assert forall k | i <= k < i + |t| :: s[k] == u[k - 1];
      assert u[i - 1..i - 1 + |t|] == s[i..i + |t|];
      ContemDePosicao(u, t, i - 1);
    }
  }

  /** When `Contem` holds, `t` sits at some position of `s`. */
  lemma {:induction false} PosicaoDeContem(s: string, t: string) returns (i: int)
    requires Contem(s, t)
    ensures OcorreEm(s, t, i)
    decreases |s|
  {
    if s[..|t|] == t {
      i := 0;
    } else {
      var u := s[1..];
      var j := PosicaoDeContem(u, t);
      assert forall k | j + 1 <= k < j + 1 + |t| :: s[k] == u[k - 1];
      assert s[j + 1..j + 1 + |t|] == u[j..j + |t|];
      i := j + 1;
    }
  }

  /** `Contem` holds exactly when `t` sits at some position of `s`. */
  lemma ContemPosicao(s: string, t: string)
    ensures Contem(s, t) <==> exists i :: OcorreEm(s, t, i)
  {
    if Contem(s, t) {
      var i := PosicaoDeContem(s, t);
    }
    if exists i :: OcorreEm(s, t, i) {
      var i :| OcorreEm(s, t, i);
      ContemDePosicao(s, t, i);
    }
  }

  /** Number of occurrences of `c` in `s`. */
  function Ocorrencias(s: string, c: char): nat {
    if s == [] then 0 else (if s[0] == c then 1 else 0) + Ocorrencias(s[1..], c)
  }

  /** `s.split(sep)` for a one-character separator: the pieces between the
      separators, one more piece than there are separators. */
  function Dividir(s: string, sep: char): (r: seq<string>)
    ensures |r| == Ocorrencias(s, sep) + 1
  {
    if s == [] then [""]
    else
      var resto := Dividir(s[1..], sep);
      if s[0] == sep then
        [""] + resto
      else
        var r := [[s[0]] + resto[0]] + resto[1..];
        assert r[1..] == resto[1..];
        assert s == [s[0]] + s[1..];
        r
  }

  /** `pedacos.join(sep)`. */
  function Juntar(pedacos: seq<string>, sep: char): string
    requires |pedacos| >= 1
  {
    if |pedacos| == 1 then pedacos[0]
    else pedacos[0] + [sep] + Juntar(pedacos[1..], sep)
  }

  /** Joining the pieces of a split with the separator gives the string back. */
  lemma {:induction false} JuntarDividir(s: string, sep: char)
    ensures Juntar(Dividir(s, sep), sep) == s
    decreases |s|
  {
    if s != [] {
      JuntarDividir(s[1..], sep);
      var resto := Dividir(s[1..], sep);
      assert s == [s[0]] + s[1..];
      if s[0] != sep {
        var r := Dividir(s, sep);
        assert r[1..] == resto[1..];
        if |resto| > 1 {
          assert resto == [resto[0]] + resto[1..];
        }
      }
    }
  }

  /** Splitting distributes over a separator: `(x + sep + y).split(sep)` is
      `x.split(sep)` followed by `y.split(sep)`. */
  lemma {:induction false} DividirConcat(x: string, y: string, sep: char)
    ensures Dividir(x + [sep] + y, sep) == Dividir(x, sep) + Dividir(y, sep)
    decreases |x|
  {
    var s := x + [sep] + y;
    if x == [] {
      assert s == [sep] + y && s[1..] == y;
    } else {
      assert s[0] == x[0] && s[1..] == x[1..] + [sep] + y;
      DividirConcat(x[1..], y, sep);
      var resto := Dividir(x[1..], sep);
      if x[0] != sep {
        EmendarConcat([x[0]], resto, Dividir(y, sep));
      } else {
        assert [""] + resto + Dividir(y, sep) == [""] + (resto + Dividir(y, sep));
      }
    }
  }

  /** Gluing `h` onto the first piece commutes with appending more pieces. */
  lemma EmendarConcat(h: string, a: seq<string>, b: seq<string>)
    requires a != []
    ensures [h + a[0]] + a[1..] + b == [h + (a + b)[0]] + (a + b)[1..]
  {
    assert (a + b)[1..] == a[1..] + b;
  }

  /** No piece of a split holds the separator. */
  lemma {:induction false} DividirSemSeparadorNasPartes(s: string, sep: char)
    ensures forall k | 0 <= k < |Dividir(s, sep)| :: sep !in Dividir(s, sep)[k]
    decreases |s|
  {
    if s != [] {
      DividirSemSeparadorNasPartes(s[1..], sep);
      var resto := Dividir(s[1..], sep);
      if s[0] != sep {
        var r := Dividir(s, sep);
        assert r[0] == [s[0]] + resto[0];
        assert forall k | 1 <= k < |r| :: r[k] == resto[k];
      }
    }
  }

  /** A string without the separator splits into itself alone. */
  lemma {:induction false} DividirSemSeparador(s: string, sep: char)
    requires sep !in s
    ensures Dividir(s, sep) == [s]
    decreases |s|
  {
    if s != [] {
      assert s == [s[0]] + s[1..] && sep !in s[1..];
      DividirSemSeparador(s[1..], sep);
    }
  }

  /** Splitting a join of pieces without the separator gives the pieces back. */
  lemma {:induction false} DividirJuntar(pedacos: seq<string>, sep: char)
    requires |pedacos| >= 1
    requires forall k | 0 <= k < |pedacos| :: sep !in pedacos[k]
    ensures Dividir(Juntar(pedacos, sep), sep) == pedacos
    decreases |pedacos|
  {
    DividirSemSeparador(pedacos[0], sep);
    if |pedacos| > 1 {
      DividirJuntar(pedacos[1..], sep);
      DividirConcat(pedacos[0], Juntar(pedacos[1..], sep), sep);
      assert pedacos == [pedacos[0]] + pedacos[1..];
    }
  }

  /** Every character of a piece is a character of the split string. */
  lemma {:induction false} DividirCaracteres(s: string, sep: char)
    ensures forall k, c | 0 <= k < |Dividir(s, sep)| && c in Dividir(s, sep)[k] :: c in s
    decreases |s|
  {
    if s != [] {
      DividirCaracteres(s[1..], sep);
      assert forall c | c in s[1..] :: c in s;
    }
  }

  /** `name.split('.').pop()`: the text after the last '.', or the whole name
      when it has no '.'. */
  function Extensao(nome: string): (r: string)
    ensures '.' !in r
    ensures '.' !in nome ==> r == nome
  {
    var pedacos := Dividir(nome, '.');
    DividirSemSeparadorNasPartes(nome, '.');
    if '.' !in nome then DividirSemSeparador(nome, '.'); pedacos[|pedacos| - 1]
    else pedacos[|pedacos| - 1]
  }

  /** Whatever precedes it, a final `.ext` (with no '.' in `ext`) is the
      extension. */
  lemma ExtensaoDoSufixo(prefixo: string, ext: string)
    requires '.' !in ext
    ensures Extensao(prefixo + "." + ext) == ext
  {
    assert prefixo + "." + ext == prefixo + ['.'] + ext;
    DividirConcat(prefixo, ext, '.');
    DividirSemSeparador(ext, '.');
  }

  /** The decimal digit for `d`. */
  function Digito(d: nat): char
    requires d < 10
  {
    ('0' as int + d) as char
  }

  /** `String(n)` for a non-negative integer: its decimal digits, no leading zero. */
  function Decimal(n: nat): (r: string)
    ensures 1 <= |r|
    ensures forall k | 0 <= k < |r| :: '0' <= r[k] <= '9'
    ensures |r| > 1 ==> r[0] != '0'
  {
    if n < 10 then [Digito(n)] else Decimal(n / 10) + [Digito(n % 10)]
  }

  /** The number a string of decimal digits denotes. */
  function ValorDecimal(s: string): nat
    requires forall k | 0 <= k < |s| :: '0' <= s[k] <= '9'
  {
    if s == [] then 0
    else ValorDecimal(s[..|s| - 1]) * 10 + (s[|s| - 1] as int - '0' as int)
  }

  /** Reading back the rendering of `n` gives `n`, so distinct ids render distinctly. */
  lemma {:induction false} DecimalIda(n: nat)
    ensures ValorDecimal(Decimal(n)) == n
  {
    if n >= 10 {
      var r := Decimal(n);
      assert r[..|r| - 1] == Decimal(n / 10);
      DecimalIda(n / 10);
    }
  }

  /** Default order of `Array.prototype.sort` on strings: lexicographic by
      character code. */
  predicate LexMenorIgual(a: string, b: string) {
    a == [] || (b != [] && (a[0] < b[0] || (a[0] == b[0] && LexMenorIgual(a[1..], b[1..]))))
  }

  lemma {:induction false} LexTotal(a: string, b: string)
    ensures LexMenorIgual(a, b) || LexMenorIgual(b, a)
  {
    if a != [] && b != [] && a[0] == b[0] { LexTotal(a[1..], b[1..]); }
  }

  lemma {:induction false} LexAntissimetrico(a: string, b: string)
    requires LexMenorIgual(a, b) && LexMenorIgual(b, a)
    ensures a == b
  {
    if a != [] && b != [] {
      LexAntissimetrico(a[1..], b[1..]);
      assert a == [a[0]] + a[1..] && b == [b[0]] + b[1..];
    }
  }

  lemma {:induction false} LexTransitivo(a: string, b: string, c: string)
    requires LexMenorIgual(a, b) && LexMenorIgual(b, c)
    ensures LexMenorIgual(a, c)
  {
    if a != [] && b != [] && c != [] && a[0] == b[0] && b[0] == c[0] {
      LexTransitivo(a[1..], b[1..], c[1..]);
    }
  }
}
