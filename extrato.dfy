/**
 * `ExtratoService`: reads the transactions of a Sicoob account statement from its
 * text lines. The lines of each page are split into blocks, one per dated
 * transaction; each block yields the amount and credit/debit mark found at the end
 * of one of its lines, and a history string made of its remaining lines.
 * Amounts are integer cents.
 */
module Extrato {
  import opened Wrappers
  import opened Text
  import opened Calendar

  // ---------------------------------------------------------------------------
  // Amounts: `ConverterValorSeguro`
  // ---------------------------------------------------------------------------

  predicate SoDigitos(s: string) {
    forall i :: 0 <= i < |s| ==> IsDigit(s[i])
  }

  /** The number a string of decimal digits denotes (0 for the empty string). */
  function ValorDigitos(s: string): (n: nat)
    requires SoDigitos(s)
    decreases |s|
  {
    if s == [] then 0 else 10 * ValorDigitos(s[..|s| - 1]) + DigitValue(s[|s| - 1])
  }

  /**
   * `decimal.Parse(s, CultureInfo.InvariantCulture)` for amounts, in cents: digits
   * with at most one '.', at least one digit, and at most two after the point.
   * Anything else is a parse failure.
   */
  function ParseDecimal(s: string): (r: Option<int>)
    ensures r.Some? ==> r.value >= 0
  {
    var p := LastIndexOf(s, '.');
    if p < 0 then
      if s != [] && SoDigitos(s) then Some(100 * ValorDigitos(s)) else None
    else
      var inteira := s[..p];
      var fracao := s[p + 1..];
      if SoDigitos(inteira) && SoDigitos(fracao) && |fracao| <= 2 && (inteira != [] || fracao != []) then
        Some(100 * ValorDigitos(inteira) + (if |fracao| == 1 then 10 else 1) * ValorDigitos(fracao))
      else None
  }

  /**
   * `ConverterValorSeguro`: the last separator is the decimal one. When the last ','
   * comes after the last '.', the dots are thousands separators and the comma the
   * decimal point; when the last '.' comes after the last ',', the commas are
   * thousands separators; with neither, the text parses as it is. A text that does
   * not parse gives 0.
   */
  function ConverterValorSeguro(texto: string): (r: int)
    ensures r >= 0
    ensures LastIndexOf(texto, ',') > LastIndexOf(texto, '.') ==>
      r == ParseDecimal(ReplaceChar(RemoveChar(texto, '.'), ',', '.')).GetOr(0)
    ensures LastIndexOf(texto, '.') > LastIndexOf(texto, ',') ==> r == ParseDecimal(RemoveChar(texto, ',')).GetOr(0)
    ensures LastIndexOf(texto, '.') == LastIndexOf(texto, ',') ==> r == ParseDecimal(texto).GetOr(0)
  {
    var ultimaVirgula := LastIndexOf(texto, ',');
    var ultimoPonto := LastIndexOf(texto, '.');
    if ultimaVirgula > ultimoPonto then
      ParseDecimal(ReplaceChar(RemoveChar(texto, '.'), ',', '.')).GetOr(0)
    else if ultimoPonto > ultimaVirgula then
      ParseDecimal(RemoveChar(texto, ',')).GetOr(0)
    else
      ParseDecimal(texto).GetOr(0)
  }

  /** The decimal digits of `n`, without leading zeros. */
  function Digitos(n: nat): (s: string)
    ensures s != [] && SoDigitos(s)
    decreases n
  {
    if n < 10 then [DigitChar(n)] else Digitos(n / 10) + [DigitChar(n % 10)]
  }

  lemma {:induction false} ValorDosDigitos(n: nat)
    ensures ValorDigitos(Digitos(n)) == n
    decreases n
  {
    if n >= 10 {
      ValorDosDigitos(n / 10);
      var s := Digitos(n);
      assert s[..|s| - 1] == Digitos(n / 10);
    }
  }

  /** An amount of `c` cents written with `sep` as the decimal separator and no thousands separator. */
  function TextoValor(c: nat, sep: char): (s: string)
    requires sep == ',' || sep == '.'
    ensures |s| >= 4 && s[|s| - 3] == sep && IsDigit(s[|s| - 2]) && IsDigit(s[|s| - 1])
    ensures SoDigitos(s[..|s| - 3])
  {
    var s := Digitos(c / 100) + [sep] + Centavos(c);
    assert s[..|s| - 3] == Digitos(c / 100);
    s
  }

  lemma RemoveCharAusente(s: string, c: char)
    requires forall i :: 0 <= i < |s| ==> s[i] != c
    ensures RemoveChar(s, c) == s
  {
    if s != [] {
      RemoveCharAusente(s[1..], c);
      assert s == [s[0]] + s[1..];
    }
  }

  lemma LastIndexOfAusente(s: string, c: char)
    requires forall i :: 0 <= i < |s| ==> s[i] != c
    ensures LastIndexOf(s, c) == -1
  {
  }

  lemma {:induction false} LastIndexOfUltimo(a: string, c: char, b: string)
    requires forall i :: 0 <= i < |b| ==> b[i] != c
    ensures LastIndexOf(a + [c] + b, c) == |a|
    decreases |b|
  {
    if b != [] {
      assert (a + [c] + b)[..|a + [c] + b| - 1] == a + [c] + b[..|b| - 1];
      LastIndexOfUltimo(a, c, b[..|b| - 1]);
    } else {
      assert a + [c] + b == a + [c];
    }
  }

  /** Digits, a point and two digits parse as that many cents. */
  lemma ParseDecimalCentavos(d: string, f: string)
    requires d != [] && SoDigitos(d) && SoDigitos(f) && |f| == 2
    ensures ParseDecimal(d + ['.'] + f) == Some(100 * ValorDigitos(d) + ValorDigitos(f))
  {
    var s := d + ['.'] + f;
    LastIndexOfEm(s, '.', |d|);
    assert s[..|d|] == d && s[|d| + 1..] == f;
  }

  /** Two digits read as the number they denote. */
  lemma ValorDoisDigitos(x: char, y: char)
    requires IsDigit(x) && IsDigit(y)
    ensures SoDigitos([x, y]) && ValorDigitos([x, y]) == 10 * DigitValue(x) + DigitValue(y)
  {
    assert [x, y][..1] == [x] && [x][..0] == [];
    assert ValorDigitos([x]) == DigitValue(x);
  }

  /** The cents digits of `TextoValor`. */
  function Centavos(c: nat): (f: string)
    ensures |f| == 2 && SoDigitos(f) && ValorDigitos(f) == c % 100
  {
    var dez := c % 100 / 10;
    var um := c % 10;
    assert 10 * dez + um == c % 100;
    ValorDoisDigitos(DigitChar(dez), DigitChar(um));
    [DigitChar(dez), DigitChar(um)]
  }

  /** With a point as separator, the commas (there are none) are dropped and the text parses. */
  lemma ConverterComPonto(d: string, f: string)
    requires d != [] && SoDigitos(d) && SoDigitos(f) && |f| == 2
    ensures ConverterValorSeguro(d + ['.'] + f) == 100 * ValorDigitos(d) + ValorDigitos(f)
  {
    var s := d + ['.'] + f;
    SemSeparador(d);
    SemSeparador(f);
    assert forall i :: 0 <= i < |s| ==> s[i] != ',';
    LastIndexOfAusente(s, ',');
    LastIndexOfUltimo(d, '.', f);
    RemoveCharAusente(s, ',');
    ParseDecimalCentavos(d, f);
  }

  lemma {:induction false} ReplaceCharConcat(a: string, b: string, c: char, d: char)
    ensures ReplaceChar(a + b, c, d) == ReplaceChar(a, c, d) + ReplaceChar(b, c, d)
    decreases |a|
  {
    if a != [] {
      assert (a + b)[1..] == a[1..] + b;
      ReplaceCharConcat(a[1..], b, c, d);
    } else {
      assert a + b == b;
    }
  }

  lemma ReplaceCharAusente(s: string, c: char, d: char)
    requires forall i :: 0 <= i < |s| ==> s[i] != c
    ensures ReplaceChar(s, c, d) == s
  {
    if s != [] {
      ReplaceCharAusente(s[1..], c, d);
      assert s == [s[0]] + s[1..];
    }
  }

  lemma ReplaceCharUnico(c: char, d: char)
    ensures ReplaceChar([c], c, d) == [d]
  {
    var r := ReplaceChar([c], c, d);
    assert |r| == 1 && r[0] == d;
  }

  /** Replacing the one `c` between `a` and `b` by `d`. */
  lemma ReplaceSeparador(a: string, c: char, d: char, b: string)
    requires SemCaractere(a, c) && SemCaractere(b, c)
    ensures ReplaceChar(a + [c] + b, c, d) == a + [d] + b
  {
    var x := a + [c];
    ReplaceCharConcat(x, b, c, d);
    ReplaceCharConcat(a, [c], c, d);
    ReplaceCharUnico(c, d);
    ReplaceCharAusente(a, c, d);
    ReplaceCharAusente(b, c, d);
  }

  /** With a comma as separator, the points (there are none) are dropped and the comma becomes the point. */
  lemma ConverterComVirgula(d: string, f: string)
    requires d != [] && SoDigitos(d) && SoDigitos(f) && |f| == 2
    ensures ConverterValorSeguro(d + [','] + f) == 100 * ValorDigitos(d) + ValorDigitos(f)
  {
    var s := d + [','] + f;
    SemSeparador(d);
    SemSeparador(f);
    assert forall i :: 0 <= i < |s| ==> s[i] != '.';
    LastIndexOfAusente(s, '.');
    LastIndexOfEm(s, ',', |d|);
    RemoveCharAusente(s, '.');
    ReplaceSeparador(d, ',', '.', f);
    ParseDecimalCentavos(d, f);
  }

  /** Reading back an amount written in either decimal style gives the amount. */
  lemma ConverterTextoValor(c: nat, sep: char)
    requires sep == ',' || sep == '.'
    ensures ConverterValorSeguro(TextoValor(c, sep)) == c
  {
    var d := Digitos(c / 100);
    var f := Centavos(c);
    ValorDosDigitos(c / 100);
    if sep == ',' {
      ConverterComVirgula(d, f);
    } else {
      ConverterComPonto(d, f);
    }
  }

  /** `c` does not occur in `s`. */
  predicate SemCaractere(s: string, c: char) {
    forall i :: 0 <= i < |s| ==> s[i] != c
  }

  /** The last `c` of `s`, named by its position. */
  lemma LastIndexOfEm(s: string, c: char, k: int)
    requires 0 <= k < |s| && s[k] == c && forall j :: k < j < |s| ==> s[j] != c
    ensures LastIndexOf(s, c) == k
  {
  }

  /** `a`, one separator and `b` with the separator removed: `a` and `b` joined. */
  lemma RemoveSeparador(a: string, c: char, b: string)
    requires SemCaractere(a, c) && SemCaractere(b, c)
    ensures RemoveChar(a + [c] + b, c) == a + b
  {
    var x := a + [c];
    RemoveCharConcat(x, b, c);
    RemoveCharConcat(a, [c], c);
    assert RemoveChar([c], c) == [] by { assert [c][1..] == []; }
    RemoveCharAusente(a, c);
    RemoveCharAusente(b, c);
    assert RemoveChar(x, c) == a + [];
    assert a + [] == a;
  }

  /** Digits are no separators. */
  lemma SemSeparador(s: string)
    requires SoDigitos(s)
    ensures forall i :: 0 <= i < |s| ==> s[i] != ',' && s[i] != '.'
  {
  }

  /** Points as thousands separators and a decimal comma, as in the statements ("1.200,50"). */
  lemma ConverterMilharComVirgula(m: string, t: string, f: string)
    requires m != [] && SoDigitos(m) && SoDigitos(t) && SoDigitos(f) && |f| == 2
    ensures ConverterValorSeguro(m + ['.'] + t + [','] + f) == 100 * ValorDigitos(m + t) + ValorDigitos(f)
  {
    var s := m + ['.'] + t + [','] + f;
    var mt := m + t;
    SemSeparador(m);
    SemSeparador(t);
    SemSeparador(f);
    SemSeparador(mt);
    assert s == m + ['.'] + (t + [','] + f);
    LastIndexOfEm(s, ',', |m| + 1 + |t|);
    LastIndexOfEm(s, '.', |m|);
    RemoveSeparador(m, '.', t + [','] + f);
    var x := RemoveChar(s, '.');
    assert x == mt + [','] + f;
    ReplaceSeparador(mt, ',', '.', f);
    ParseDecimalCentavos(mt, f);
  }

  /** Commas as thousands separators and a decimal point ("1,200.50"). */
  lemma ConverterMilharComPonto(m: string, t: string, f: string)
    requires m != [] && SoDigitos(m) && SoDigitos(t) && SoDigitos(f) && |f| == 2
    ensures ConverterValorSeguro(m + [','] + t + ['.'] + f) == 100 * ValorDigitos(m + t) + ValorDigitos(f)
  {
    var s := m + [','] + t + ['.'] + f;
    assert s == m + [','] + (t + ['.'] + f);
    LastIndexOfEm(s, '.', |m| + 1 + |t|);
    LastIndexOfEm(s, ',', |m|);
    RemoveSeparador(m, ',', t + ['.'] + f);
    assert m + (t + ['.'] + f) == (m + t) + ['.'] + f;
    ParseDecimalCentavos(m + t, f);
  }

  lemma {:induction false} RemoveCharConcat(a: string, b: string, c: char)
    ensures RemoveChar(a + b, c) == RemoveChar(a, c) + RemoveChar(b, c)
    decreases |a|
  {
    if a != [] {
      assert (a + b)[1..] == a[1..] + b;
      RemoveCharConcat(a[1..], b, c);
    } else {
      assert a + b == b;
    }
  }

  /** Two points and no comma: the text before the last point is not a number, so it reads as 0 ("1.000.20"). */
  lemma ConverterDoisPontos(a: string, b: string, c: string)
    requires forall i :: 0 <= i < |a| ==> a[i] != ','
    requires forall i :: 0 <= i < |b| ==> b[i] != ','
    requires forall i :: 0 <= i < |c| ==> c[i] != ',' && c[i] != '.'
    ensures ConverterValorSeguro(a + ['.'] + b + ['.'] + c) == 0
  {
    var p := a + ['.'] + b;
    var s := p + ['.'] + c;
    assert forall i :: 0 <= i < |p| ==> p[i] != ',';
    assert forall i :: 0 <= i < |s| ==> s[i] != ',';
    LastIndexOfAusente(s, ',');
    LastIndexOfEm(s, '.', |p|);
    RemoveCharAusente(s, ',');
    assert s[..|p|] == p && p[|a|] == '.';
    assert !SoDigitos(p);
  }

  // ---------------------------------------------------------------------------
  // The amount at the end of a line:
  // `(\d{1,3}(?:[.,]\d{3})*[.,]\d{2})\s*([CD])\s*$`, leftmost match
  // ---------------------------------------------------------------------------

  predicate Separador(c: char) {
    c == '.' || c == ','
  }

  /** Digits and separators only. */
  predicate SoNumerico(s: string) {
    forall i :: 0 <= i < |s| ==> IsDigit(s[i]) || Separador(s[i])
  }

  /** `\d{1,3}(?:[.,]\d{3})*`: one to three digits, then groups of a separator and three digits. */
  predicate Milhares(s: string)
    decreases |s|
  {
    if |s| <= 3 then s != [] && SoDigitos(s)
    else |s| >= 5 && Separador(s[|s| - 4]) && SoDigitos(s[|s| - 3..]) && Milhares(s[..|s| - 4])
  }

  /** `\d+(?:[.,]\d{3})*`: any positive number of leading digits, then the groups. */
  predicate MilharesLivre(s: string)
    decreases |s|
  {
    (s != [] && SoDigitos(s))
    || (|s| >= 5 && Separador(s[|s| - 4]) && SoDigitos(s[|s| - 3..]) && MilharesLivre(s[..|s| - 4]))
  }

  /** The amount group of the pattern as written: thousands groups, a separator and two decimals. */
  predicate ValorComoEscrito(s: string) {
    |s| >= 4 && Separador(s[|s| - 3]) && SoDigitos(s[|s| - 2..]) && Milhares(s[..|s| - 3])
  }

  /** The amount group with an integer part of any length, as the comment at the pattern intends. */
  predicate ValorCorrigido(s: string) {
    |s| >= 4 && Separador(s[|s| - 3]) && SoDigitos(s[|s| - 2..]) && MilharesLivre(s[..|s| - 3])
  }

  lemma {:induction false} MilharesLivreNumerico(s: string)
    requires MilharesLivre(s)
    ensures SoNumerico(s)
    decreases |s|
  {
    if !(s != [] && SoDigitos(s)) {
      var a := s[..|s| - 4];
      MilharesLivreNumerico(a);
      assert forall i :: 0 <= i < |s| ==> (i < |s| - 4 && s[i] == a[i]) || i == |s| - 4 || s[i] == s[|s| - 3..][i - (|s| - 3)];
    }
  }

  /** Every amount the written pattern accepts is accepted by the corrected one. */
  lemma {:induction false} MilharesNoLivre(s: string)
    requires Milhares(s)
    ensures MilharesLivre(s)
    decreases |s|
  {
    if |s| > 3 {
      MilharesNoLivre(s[..|s| - 4]);
    }
  }

  /** Amounts of both patterns are made of digits and separators and end in a digit. */
  lemma ValorNumerico(s: string)
    requires ValorComoEscrito(s) || ValorCorrigido(s)
    ensures SoNumerico(s) && IsDigit(s[|s| - 1])
  {
    var a := s[..|s| - 3];
    if ValorComoEscrito(s) {
      MilharesNoLivre(a);
    }
    MilharesLivreNumerico(a);
    assert forall i :: 0 <= i < |s| ==> (i < |s| - 3 && s[i] == a[i]) || i == |s| - 3 || s[i] == s[|s| - 2..][i - (|s| - 2)];
  }

  /** `\s*t\s*$`: the rest of the line after the amount is the mark `t` between white space. */
  predicate Cauda(s: string, t: char) {
    var u := TrimEnd(s);
    u != [] && u[|u| - 1] == t && IsBlank(u[..|u| - 1])
  }

  /** The amount group `linha[j..f]` satisfies `formato` and is followed by a C or D mark. */
  predicate CasaEm(linha: string, j: int, f: int, formato: string -> bool) {
    0 <= j <= f <= |linha| && formato(linha[j..f]) && (Cauda(linha[f..], 'C') || Cauda(linha[f..], 'D'))
  }

  /** `TrimEnd` is the one prefix that leaves only white space behind and does not end in white space. */
  lemma TrimEndUnico(s: string, r: string)
    requires |r| <= |s| && r == s[..|r|]
    requires forall i :: |r| <= i < |s| ==> IsWhiteSpace(s[i])
    requires r == [] || !IsWhiteSpace(r[|r| - 1])
    ensures TrimEnd(s) == r
  {
    var t := TrimEnd(s);
    assert |t| >= |r| by {
      if r != [] {
        assert s[|r| - 1] == r[|r| - 1];
      }
    }
    assert |r| >= |t| by {
      if t != [] {
        assert s[|t| - 1] == t[|t| - 1];
      }
    }
  }

  /**
   * Where the amount group must end: the last non-blank character is the C/D mark
   * at `k`, and the group ends at `e`, just after the last non-blank character
   * before the mark.
   */
  function FimDoValor(linha: string): (r: Option<(nat, nat)>)
    ensures r.Some? ==> r.value.0 <= r.value.1 < |linha| && (linha[r.value.1] == 'C' || linha[r.value.1] == 'D')
    ensures r.Some? ==> Cauda(linha[r.value.0..], linha[r.value.1])
    ensures r.Some? ==> r.value.0 == 0 || !IsWhiteSpace(linha[r.value.0 - 1])
  {
    var t := TrimEnd(linha);
    if t == [] || !(t[|t| - 1] == 'C' || t[|t| - 1] == 'D') then None
    else
      var k := |t| - 1;
      var e := |TrimEnd(t[..k])|;
      FimDoValorCauda(linha, t, e, k);
      Some((e, k))
  }

  lemma FimDoValorCauda(linha: string, t: string, e: nat, k: nat)
    requires t == TrimEnd(linha) && k == |t| - 1 && (t[k] == 'C' || t[k] == 'D') && e == |TrimEnd(t[..k])|
    ensures e <= k && Cauda(linha[e..], linha[k])
    ensures e == 0 || !IsWhiteSpace(linha[e - 1])
  {
    var w := TrimEnd(t[..k]);
    assert forall i :: e <= i < k ==> IsWhiteSpace(linha[i]) by {
      forall i | e <= i < k ensures IsWhiteSpace(linha[i]) {
        assert t[..k][i] == linha[i];
      }
    }
    assert e > 0 ==> w[e - 1] == linha[e - 1];
    CaudaDoFim(linha, e, k);
  }

  /** When `linha[k]` is the last non-blank character and only blanks lie in `[e, k)`, the rest from `e` is a mark between blanks. */
  lemma CaudaDoFim(linha: string, e: nat, k: nat)
    requires e <= k < |linha| && !IsWhiteSpace(linha[k])
    requires forall i :: k < i < |linha| ==> IsWhiteSpace(linha[i])
    requires forall i :: e <= i < k ==> IsWhiteSpace(linha[i])
    ensures Cauda(linha[e..], linha[k])
  {
    var s := linha[e..];
    var u := linha[e..k + 1];
    assert u == s[..|u|];
    TrimEndUnico(s, u);
    assert u[..|u| - 1] == linha[e..k];
  }

  /** The leftmost start `j >= i` whose suffix up to `e` satisfies `formato`. */
  function PrimeiroInicio(linha: string, e: nat, i: nat, formato: string -> bool): (r: Option<nat>)
    requires i <= e <= |linha|
    ensures r.Some? ==> i <= r.value <= e && formato(linha[r.value..e])
    ensures r.Some? ==> forall j :: i <= j < r.value ==> !formato(linha[j..e])
    ensures r.None? ==> forall j :: i <= j <= e ==> !formato(linha[j..e])
    decreases e - i
  {
    if formato(linha[i..e]) then Some(i)
    else if i == e then None
    else PrimeiroInicio(linha, e, i + 1, formato)
  }

  /** The amount group found in a line, where it starts, and the C/D mark after it. */
  datatype Casamento = Casamento(inicio: nat, texto: string, tipo: char)

  /** `Regex.Match` of the amount pattern whose amount group is described by `formato`. */
  function CasarCom(linha: string, formato: string -> bool): (r: Option<Casamento>)
    ensures r.Some? ==> r.value.inicio + |r.value.texto| <= |linha|
    ensures r.Some? ==> var f := r.value.inicio + |r.value.texto|;
      r.value.texto == linha[r.value.inicio..f] && CasaEm(linha, r.value.inicio, f, formato)
      && (r.value.tipo == 'C' || r.value.tipo == 'D') && Cauda(linha[f..], r.value.tipo)
      && forall j :: 0 <= j < r.value.inicio ==> !formato(linha[j..f])
  {
    match FimDoValor(linha)
    case None => None
    case Some((e, k)) =>
      match PrimeiroInicio(linha, e, 0, formato)
      case None => None
      case Some(i) =>
        CasamentoEm(linha, e, k, i, formato);
        Some(Casamento(i, linha[i..e], linha[k]))
  }

  lemma CasamentoEm(linha: string, e: nat, k: nat, i: nat, formato: string -> bool)
    requires FimDoValor(linha) == Some((e, k)) && PrimeiroInicio(linha, e, 0, formato) == Some(i)
    ensures i <= e <= |linha| && CasaEm(linha, i, e, formato) && (linha[k] == 'C' || linha[k] == 'D')
    ensures Cauda(linha[e..], linha[k]) && forall j :: 0 <= j < i ==> !formato(linha[j..e])
  {
  }

  /** A group that ends in a digit fixes where a match must end: at the end `FimDoValor` finds. */
  lemma FimUnico(linha: string, j: int, f: int, formato: string -> bool)
    requires CasaEm(linha, j, f, formato) && j < f && IsDigit(linha[f - 1])
    ensures FimDoValor(linha).Some? && FimDoValor(linha).value.0 == f
  {
    if Cauda(linha[f..], 'C') {
      FimAntesDaCauda(linha, f, 'C');
    } else {
      FimAntesDaCauda(linha, f, 'D');
    }
  }

  /** A non-blank character followed by a mark between blanks ends the amount group. */
  lemma FimAntesDaCauda(linha: string, f: int, c: char)
    requires 0 < f <= |linha| && !IsWhiteSpace(linha[f - 1]) && Cauda(linha[f..], c) && (c == 'C' || c == 'D')
    ensures FimDoValor(linha).Some? && FimDoValor(linha).value.0 == f
  {
    var k := MarcaDepois(linha, f, c);
    FimDoValorEm(linha, f, k);
  }

  /** The mark after the group is the last non-blank character, and only blanks lie between them. */
  lemma MarcaDepois(linha: string, f: int, c: char) returns (k: nat)
    requires 0 < f <= |linha| && !IsWhiteSpace(linha[f - 1]) && Cauda(linha[f..], c) && (c == 'C' || c == 'D')
    ensures f <= k < |linha| && linha[k] == c
    ensures TrimEnd(linha) == linha[..k + 1] && TrimEnd(linha[..k]) == linha[..f]
  {
    var s := linha[f..];
    var u := TrimEnd(s);
    var t := linha[..f + |u|];
    forall i | |t| <= i < |linha| ensures IsWhiteSpace(linha[i]) {
      assert linha[i] == s[i - f];
    }
    assert t[|t| - 1] == u[|u| - 1];
    TrimEndUnico(linha, t);
    k := |t| - 1;
    forall i | f <= i < k ensures IsWhiteSpace(t[..k][i]) {
      assert t[..k][i] == u[..|u| - 1][i - f];
    }
    TrimEndUnico(t[..k], linha[..f]);
    assert t[..k] == linha[..k];
  }

  lemma FimDoValorEm(linha: string, e: nat, k: nat)
    requires e <= k < |linha| && (linha[k] == 'C' || linha[k] == 'D')
    requires TrimEnd(linha) == linha[..k + 1] && TrimEnd(linha[..k]) == linha[..e]
    ensures FimDoValor(linha).Some? && FimDoValor(linha).value.0 == e
  {
    assert linha[..k + 1][..k] == linha[..k];
  }


  /**
   * Leftmost-match semantics: whenever the line has a match starting at `j`, the
   * matcher reports one, starting at `j` or earlier, with the same end.
   */
  lemma CasarComMaisAEsquerda(linha: string, j: int, f: int, formato: string -> bool)
    requires CasaEm(linha, j, f, formato) && j < f && IsDigit(linha[f - 1])
    ensures CasarCom(linha, formato).Some?
    ensures CasarCom(linha, formato).value.inicio <= j
    ensures CasarCom(linha, formato).value.inicio + |CasarCom(linha, formato).value.texto| == f
  {
    FimUnico(linha, j, f, formato);
  }

  /** The matcher as the source writes it. */
  function CasarValorComoEscrito(linha: string): (r: Option<Casamento>)
    ensures r.Some? ==> ValorComoEscrito(r.value.texto) && (r.value.tipo == 'C' || r.value.tipo == 'D')
    ensures r.Some? ==> r.value.inicio + |r.value.texto| <= |linha| && r.value.texto == linha[r.value.inicio..r.value.inicio + |r.value.texto|]
  {
    CasarCom(linha, ValorComoEscrito)
  }

  /** The matcher with the integer part of any length. */
  function CasarValor(linha: string): (r: Option<Casamento>)
    ensures r.Some? ==> ValorCorrigido(r.value.texto) && (r.value.tipo == 'C' || r.value.tipo == 'D')
    ensures r.Some? ==> r.value.inicio + |r.value.texto| <= |linha| && r.value.texto == linha[r.value.inicio..r.value.inicio + |r.value.texto|]
  {
    CasarCom(linha, ValorCorrigido)
  }

  /** " C" and " D": one blank, then the mark. */
  lemma CaudaSimples(t: char)
    requires t == 'C' || t == 'D'
    ensures Cauda([' ', t], t)
  {
    TrimEndUnico([' ', t], [' ', t]);
    assert [' ', t][..1] == [' '];
  }

  /** A line that ends in a group ending with a digit, a blank and a mark: the group ends just before the blank. */
  lemma FimComMarca(a: string, v: string, tipo: char)
    requires v != [] && IsDigit(v[|v| - 1]) && (tipo == 'C' || tipo == 'D')
    ensures FimDoValor(a + v + [' ', tipo]) == Some((|a| + |v|, |a| + |v| + 1))
  {
    var l := a + v + [' ', tipo];
    TrimEndUnico(l, l);
    var k := |l| - 1;
    assert l[..k] == (a + v) + [' '];
    assert (a + v) + [' '] == ((a + v) + [' '])[..|a + v|] + [' '];
    TrimEndUnico(l[..k], a + v);
  }

  /** No start before a blank can begin an amount group that runs past that blank. */
  lemma InicioAposBranco(l: string, j: nat, f: nat, formato: string -> bool)
    requires 0 < j <= f <= |l| && IsWhiteSpace(l[j - 1])
    requires forall s :: formato(s) ==> ValorComoEscrito(s) || ValorCorrigido(s)
    ensures forall i :: 0 <= i < j ==> !formato(l[i..f])
  {
    forall i | 0 <= i < j ensures !formato(l[i..f]) {
      if formato(l[i..f]) {
        assert l[i..f][j - 1 - i] == l[j - 1];
        ValorNumerico(l[i..f]);
      }
    }
  }

  /**
   * An amount group written after a blank (or at the start of the line), followed
   * by a blank and its C/D mark, is found whole.
   */
  lemma CasarComAposBranco(prefixo: string, v: string, tipo: char, formato: string -> bool)
    requires prefixo == [] || IsWhiteSpace(prefixo[|prefixo| - 1])
    requires forall s :: formato(s) ==> ValorComoEscrito(s) || ValorCorrigido(s)
    requires formato(v) && (tipo == 'C' || tipo == 'D')
    ensures CasarCom(prefixo + v + [' ', tipo], formato) == Some(Casamento(|prefixo|, v, tipo))
  {
    var l := prefixo + v + [' ', tipo];
    var j := |prefixo|;
    var f := j + |v|;
    ValorNumerico(v);
    FimComMarca(prefixo, v, tipo);
    assert l[j..f] == v;
    assert l[f + 1] == tipo;
    if j > 0 {
      assert l[j - 1] == prefixo[j - 1];
      InicioAposBranco(l, j, f, formato);
    }
    var p := PrimeiroInicio(l, f, 0, formato);
    assert p == Some(j);
    assert CasarCom(l, formato) == Some(Casamento(j, l[j..f], l[f + 1]));
  }

  lemma CasarValorAposBranco(prefixo: string, v: string, tipo: char)
    requires prefixo == [] || IsWhiteSpace(prefixo[|prefixo| - 1])
    requires ValorCorrigido(v) && (tipo == 'C' || tipo == 'D')
    ensures CasarValor(prefixo + v + [' ', tipo]) == Some(Casamento(|prefixo|, v, tipo))
  {
    CasarComAposBranco(prefixo, v, tipo, ValorCorrigido);
  }

  lemma CasarValorComoEscritoAposBranco(prefixo: string, v: string, tipo: char)
    requires prefixo == [] || IsWhiteSpace(prefixo[|prefixo| - 1])
    requires ValorComoEscrito(v) && (tipo == 'C' || tipo == 'D')
    ensures CasarValorComoEscrito(prefixo + v + [' ', tipo]) == Some(Casamento(|prefixo|, v, tipo))
  {
    CasarComAposBranco(prefixo, v, tipo, ValorComoEscrito);
  }

  /** An amount of any size, written with either decimal separator, is matched whole and reads back as itself. */
  lemma CasarValorTextoValor(prefixo: string, c: nat, sep: char, tipo: char)
    requires prefixo == [] || IsWhiteSpace(prefixo[|prefixo| - 1])
    requires sep == ',' || sep == '.'
    requires tipo == 'C' || tipo == 'D'
    ensures CasarValor(prefixo + TextoValor(c, sep) + [' ', tipo]) == Some(Casamento(|prefixo|, TextoValor(c, sep), tipo))
    ensures ConverterValorSeguro(TextoValor(c, sep)) == c
  {
    var v := TextoValor(c, sep);
    assert v[..|v| - 3] == Digitos(c / 100);
    assert v[|v| - 2..] == [v[|v| - 2], v[|v| - 1]];
    assert ValorCorrigido(v);
    CasarValorAposBranco(prefixo, v, tipo);
    ConverterTextoValor(c, sep);
  }

  /** "1000", "000" and "20" as numbers. */
  lemma ValoresMil()
    ensures SoDigitos("1000") && ValorDigitos("1000") == 1000
    ensures SoDigitos("000") && ValorDigitos("000") == 0
    ensures SoDigitos("20") && ValorDigitos("20") == 20
  {
    assert "1000"[..3] == "100" && "100"[..2] == "10" && "10"[..1] == "1" && "1"[..0] == [];
    assert "000"[..2] == "00" && "00"[..1] == "0" && "0"[..0] == [];
    ValorDoisDigitos('2', '0');
    assert "20" == ['2', '0'];
  }

  /**
   * The pattern as written reads "1000.20 C" as 0.20: the leftmost start at which
   * the one-to-three-digit group fits is the second digit, so the amount group is
   * "000.20".
   */
  lemma ComoEscritoLeMil()
    ensures CasarValorComoEscrito("1000.20 C") == Some(Casamento(1, "000.20", 'C'))
    ensures ConverterValorSeguro("000.20") == 20
  {
    CasarValorComoEscritoAposBrancoOuDigito();
    ConverterZeroVinte();
  }

  lemma ConverterZeroVinte()
    ensures ConverterValorSeguro("000.20") == 20
  {
    ValoresMil();
    ConverterComPonto("000", "20");
    assert "000" + ['.'] + "20" == "000.20";
  }

  /** The first start, "1000.20", is refused by the written pattern: four digits before the separator. */
  lemma CasarValorComoEscritoAposBrancoOuDigito()
    ensures CasarValorComoEscrito("1000.20 C") == Some(Casamento(1, "000.20", 'C'))
  {
    var l := "1000.20 C";
    assert l == "1" + "000.20" + [' ', 'C'];
    FimComMarca("1", "000.20", 'C');
    assert l[0..7] == "1000.20" && l[1..7] == "000.20";
    MilNaoEscrito();
    ZeroVinteEscrito();
  }

  lemma MilNaoEscrito()
    ensures !ValorComoEscrito("1000.20")
  {
    assert "1000.20"[..4] == "1000";
  }

  lemma ZeroVinteEscrito()
    ensures ValorComoEscrito("000.20")
  {
    var v := "000.20";
    assert v[..3] == "000" && v[4..] == "20";
  }

  /** The corrected pattern reads "1000.20 C" as 1000.20. */
  lemma CorrigidoLeMil()
    ensures CasarValor("1000.20 C") == Some(Casamento(0, "1000.20", 'C'))
    ensures ConverterValorSeguro("1000.20") == 100020
  {
    CorrigidoCasaMil();
    ConverterMilVinte();
  }

  lemma CorrigidoCasaMil()
    ensures CasarValor("1000.20 C") == Some(Casamento(0, "1000.20", 'C'))
  {
    MilCorrigido();
    CasarValorAposBranco("", "1000.20", 'C');
    assert "" + "1000.20" + [' ', 'C'] == "1000.20 C";
  }

  lemma MilCorrigido()
    ensures ValorCorrigido("1000.20")
  {
    ValoresMil();
    assert "1000.20"[..4] == "1000" && "1000.20"[5..] == "20";
  }

  lemma ConverterMilVinte()
    ensures ConverterValorSeguro("1000.20") == 100020
  {
    ValoresMil();
    ConverterComPonto("1000", "20");
    assert "1000" + ['.'] + "20" == "1000.20";
  }

  // ---------------------------------------------------------------------------
  // One transaction's block: `ProcessarBlocoFinal`
  // ---------------------------------------------------------------------------

  /** `TransacaoExtratoDto`: date, history, amount in cents and the C/D mark. */
  datatype TransacaoExtrato = TransacaoExtrato(data: DateTime, historico: string, valor: int, tipo: char)

  /** A fresh `TransacaoExtratoDto` holding only its date. */
  function TransacaoNova(data: DateTime): TransacaoExtrato {
    TransacaoExtrato(data, "", 0, '\0')
  }

  /**
   * What one block line (with any amount already cut off) contributes to the
   * history: blank lines, lines starting "***" and "DOC.: Pix" are dropped; a
   * "DOC.:" prefix is removed; a "REM.:" prefix is written "REM: ".
   */
  function LinhaHistorico(linha: string): (r: Option<string>)
    ensures r.Some? ==> !IsBlank(r.value)
    ensures IsBlank(linha) || StartsWith(linha, "***") ==> r.None?
    ensures (!IsBlank(linha) && !StartsWith(linha, "***") && !StartsWithIgnoreCase(linha, "DOC.:")
             && !StartsWithIgnoreCase(linha, "REM.:")) ==> r == Some(linha)
    ensures StartsWithIgnoreCase(linha, "DOC.:") && EqualsIgnoreCase(Trim(linha[5..]), "Pix") ==> r.None?
  {
    if IsBlank(linha) || StartsWith(linha, "***") then None
    else if StartsWithIgnoreCase(linha, "DOC.:") && EqualsIgnoreCase(Trim(linha[5..]), "Pix") then None
    else
      var l := if StartsWithIgnoreCase(linha, "DOC.:") then Trim(linha[5..]) else linha;
      var l' := if StartsWithIgnoreCase(l, "REM.:") then "REM: " + Trim(l[5..]) else l;
      if IsBlank(l') then None else Some(l')
  }

  /** The amount, the mark and the kept history lines, while a block is read. */
  datatype EstadoBloco = EstadoBloco(valor: int, tipo: char, historico: seq<string>)

  /**
   * Reading the amount off one line: only while no amount is known (`valor == 0`);
   * a match sets the amount and the mark, and leaves the text before the amount
   * group, trimmed, as the line.
   */
  function LerValor(s: EstadoBloco, linha: string, formato: string -> bool): (r: (EstadoBloco, string))
    ensures r.0.historico == s.historico
    ensures s.valor != 0 || CasarCom(linha, formato).None? ==> r == (s, linha)
    ensures s.valor == 0 && CasarCom(linha, formato).Some? ==>
      var m := CasarCom(linha, formato).value;
      r.0.valor == ConverterValorSeguro(m.texto) && r.0.tipo == m.tipo && r.1 == Trim(linha[..m.inicio])
  {
    if s.valor == 0 then
      match CasarCom(linha, formato)
      case None => (s, linha)
      case Some(m) => (s.(valor := ConverterValorSeguro(m.texto), tipo := m.tipo), Trim(linha[..m.inicio]))
    else (s, linha)
  }

  /** One iteration of the loop of `ProcessarBlocoFinal`. */
  function PassoBloco(s: EstadoBloco, linha: string, formato: string -> bool): EstadoBloco {
    var (s', resto) := LerValor(s, linha, formato);
    match LinhaHistorico(resto)
    case None => s'
    case Some(h) => s'.(historico := s'.historico + [h])
  }

  /** The loop of `ProcessarBlocoFinal` over the first lines of a block. */
  function PercorrerBloco(s: EstadoBloco, linhas: seq<string>, formato: string -> bool): EstadoBloco
    decreases |linhas|
  {
    if linhas == [] then s else PassoBloco(PercorrerBloco(s, linhas[..|linhas| - 1], formato), linhas[|linhas| - 1], formato)
  }

  /** The transaction once its block is read: amount, mark, and the kept lines joined by " | ". */
  function BlocoFinal(t: TransacaoExtrato, linhas: seq<string>, formato: string -> bool): (r: TransacaoExtrato)
    ensures r.data == t.data
  {
    var s := PercorrerBloco(EstadoBloco(t.valor, t.tipo, []), linhas, formato);
    t.(valor := s.valor, tipo := s.tipo, historico := Trim(Join(" | ", s.historico)))
  }

  /** `ProcessarBlocoFinal`: the loop over the block's lines, and the history joined at the end. */
  method ProcessarBlocoFinal(t: TransacaoExtrato, linhas: seq<string>) returns (r: TransacaoExtrato)
    ensures r == BlocoFinal(t, linhas, ValorComoEscrito)
  {
    var historicoFinal: seq<string> := [];
    var valor, tipo := t.valor, t.tipo;
    for i := 0 to |linhas|
      invariant PercorrerBloco(EstadoBloco(t.valor, t.tipo, []), linhas[..i], ValorComoEscrito) == EstadoBloco(valor, tipo, historicoFinal)
    {
      assert linhas[..i + 1][..i] == linhas[..i];
      var linha := linhas[i];
      if valor == 0 {
        var m := CasarValorComoEscrito(linha);
        if m.Some? {
          valor := ConverterValorSeguro(m.value.texto);
          tipo := m.value.tipo;
          linha := Trim(linha[..m.value.inicio]);
        }
      }
      if IsBlank(linha) || StartsWith(linha, "***") {
        continue;
      }
      if StartsWithIgnoreCase(linha, "DOC.:") {
        var conteudo := Trim(linha[5..]);
        if EqualsIgnoreCase(conteudo, "Pix") {
          continue;
        }
        linha := conteudo;
      }
      if StartsWithIgnoreCase(linha, "REM.:") {
        linha := "REM: " + Trim(linha[5..]);
      }
      if !IsBlank(linha) {
        historicoFinal := historicoFinal + [linha];
      }
    }
    assert linhas[..|linhas|] == linhas;
    r := t.(valor := valor, tipo := tipo, historico := Trim(Join(" | ", historicoFinal)));
  }

  lemma {:induction false} PercorrerBlocoConcat(s: EstadoBloco, a: seq<string>, b: seq<string>, formato: string -> bool)
    ensures PercorrerBloco(s, a + b, formato) == PercorrerBloco(PercorrerBloco(s, a, formato), b, formato)
    decreases |b|
  {
    if b == [] {
      assert a + b == a;
    } else {
      assert (a + b)[..|a + b| - 1] == a + b[..|b| - 1];
      PercorrerBlocoConcat(s, a, b[..|b| - 1], formato);
    }
  }

  /** Once an amount is known, later lines do not change the amount or the mark. */
  lemma {:induction false} ValorFixo(s: EstadoBloco, linhas: seq<string>, formato: string -> bool)
    requires s.valor != 0
    ensures PercorrerBloco(s, linhas, formato).valor == s.valor && PercorrerBloco(s, linhas, formato).tipo == s.tipo
    decreases |linhas|
  {
    if linhas != [] {
      ValorFixo(s, linhas[..|linhas| - 1], formato);
    }
  }

  /** Lines without an amount at their end leave the amount and the mark as they were. */
  lemma {:induction false} SemValorAntes(s: EstadoBloco, linhas: seq<string>, formato: string -> bool)
    requires forall i :: 0 <= i < |linhas| ==> CasarCom(linhas[i], formato).None?
    ensures PercorrerBloco(s, linhas, formato).valor == s.valor && PercorrerBloco(s, linhas, formato).tipo == s.tipo
    decreases |linhas|
  {
    if linhas != [] {
      SemValorAntes(s, linhas[..|linhas| - 1], formato);
    }
  }

  /**
   * The amount and the mark come from the first line that ends in an amount, when
   * that amount is not zero; the lines after it are not scanned.
   */
  lemma PrimeiroValor(t: TransacaoExtrato, linhas: seq<string>, k: nat, formato: string -> bool)
    requires t.valor == 0 && k < |linhas|
    requires forall i :: 0 <= i < k ==> CasarCom(linhas[i], formato).None?
    requires CasarCom(linhas[k], formato).Some? && ConverterValorSeguro(CasarCom(linhas[k], formato).value.texto) != 0
    ensures BlocoFinal(t, linhas, formato).valor == ConverterValorSeguro(CasarCom(linhas[k], formato).value.texto)
    ensures BlocoFinal(t, linhas, formato).tipo == CasarCom(linhas[k], formato).value.tipo
  {
    PrimeiroValorBloco(EstadoBloco(t.valor, t.tipo, []), linhas, k, formato);
  }

  lemma PrimeiroValorBloco(s0: EstadoBloco, linhas: seq<string>, k: nat, formato: string -> bool)
    requires s0.valor == 0 && k < |linhas|
    requires forall i :: 0 <= i < k ==> CasarCom(linhas[i], formato).None?
    requires CasarCom(linhas[k], formato).Some? && ConverterValorSeguro(CasarCom(linhas[k], formato).value.texto) != 0
    ensures PercorrerBloco(s0, linhas, formato).valor == ConverterValorSeguro(CasarCom(linhas[k], formato).value.texto)
    ensures PercorrerBloco(s0, linhas, formato).tipo == CasarCom(linhas[k], formato).value.tipo
  {
    var antes := linhas[..k + 1];
    assert linhas == antes + linhas[k + 1..];
    PercorrerBlocoConcat(s0, antes, linhas[k + 1..], formato);
    ValorNoPrimeiro(s0, linhas, k, formato);
    ValorFixo(PercorrerBloco(s0, antes, formato), linhas[k + 1..], formato);
  }

  lemma ValorNoPrimeiro(s0: EstadoBloco, linhas: seq<string>, k: nat, formato: string -> bool)
    requires s0.valor == 0 && k < |linhas|
    requires forall i :: 0 <= i < k ==> CasarCom(linhas[i], formato).None?
    requires CasarCom(linhas[k], formato).Some?
    ensures PercorrerBloco(s0, linhas[..k + 1], formato).valor == ConverterValorSeguro(CasarCom(linhas[k], formato).value.texto)
    ensures PercorrerBloco(s0, linhas[..k + 1], formato).tipo == CasarCom(linhas[k], formato).value.tipo
  {
    var antes := linhas[..k];
    assert linhas[..k + 1][..k] == antes;
    assert forall i :: 0 <= i < |antes| ==> antes[i] == linhas[i];
    SemValorAntes(s0, antes, formato);
  }

  /** The history lines kept from lines that carry no amount to cut off. */
  function Mantidas(linhas: seq<string>): (r: seq<string>)
    ensures |r| <= |linhas|
    ensures forall i :: 0 <= i < |r| ==> !IsBlank(r[i])
    decreases |linhas|
  {
    if linhas == [] then []
    else
      var h := LinhaHistorico(linhas[|linhas| - 1]);
      Mantidas(linhas[..|linhas| - 1]) + (if h.Some? then [h.value] else [])
  }

  /** With the amount already known, the history is the kept lines in their order. */
  lemma {:induction false} HistoricoComValor(s: EstadoBloco, linhas: seq<string>, formato: string -> bool)
    requires s.valor != 0
    ensures PercorrerBloco(s, linhas, formato).historico == s.historico + Mantidas(linhas)
    decreases |linhas|
  {
    if linhas != [] {
      ValorFixo(s, linhas[..|linhas| - 1], formato);
      HistoricoComValor(s, linhas[..|linhas| - 1], formato);
    }
  }

  /** Every history line kept is non-blank. */
  lemma {:induction false} HistoricoSemBrancos(s: EstadoBloco, linhas: seq<string>, formato: string -> bool)
    requires forall i :: 0 <= i < |s.historico| ==> !IsBlank(s.historico[i])
    ensures forall i :: 0 <= i < |PercorrerBloco(s, linhas, formato).historico| ==> !IsBlank(PercorrerBloco(s, linhas, formato).historico[i])
    decreases |linhas|
  {
    if linhas != [] {
      HistoricoSemBrancos(s, linhas[..|linhas| - 1], formato);
    }
  }

  /** Lines without an amount at their end keep the amount, the mark, and add their kept history lines in order. */
  lemma {:induction false} HistoricoSemValor(s: EstadoBloco, linhas: seq<string>, formato: string -> bool)
    requires forall i :: 0 <= i < |linhas| ==> CasarCom(linhas[i], formato).None?
    ensures PercorrerBloco(s, linhas, formato) == s.(historico := s.historico + Mantidas(linhas))
    decreases |linhas|
  {
    if linhas == [] {
      assert s.historico + [] == s.historico;
    } else {
      var n := |linhas| - 1;
      HistoricoSemValor(s, linhas[..n], formato);
    }
  }

  /** A block in which no line ends in an amount: the transaction keeps its amount and mark, and its history is every kept line. */
  lemma BlocoSemValor(t: TransacaoExtrato, linhas: seq<string>, formato: string -> bool)
    requires forall i :: 0 <= i < |linhas| ==> CasarCom(linhas[i], formato).None?
    ensures BlocoFinal(t, linhas, formato) == t.(historico := Trim(Join(" | ", Mantidas(linhas))))
  {
    HistoricoSemValor(EstadoBloco(t.valor, t.tipo, []), linhas, formato);
    assert [] + Mantidas(linhas) == Mantidas(linhas);
  }

  /** The line holding the first amount: the amount and the mark are read, and the text before it may join the history. */
  lemma PassoComValor(p: EstadoBloco, linha: string, formato: string -> bool)
    requires p.valor == 0 && CasarCom(linha, formato).Some?
    ensures var m := CasarCom(linha, formato).value;
      PassoBloco(p, linha, formato)
      == EstadoBloco(ConverterValorSeguro(m.texto), m.tipo, p.historico + Mantidas([Trim(linha[..m.inicio])]))
  {
    var m := CasarCom(linha, formato).value;
    MantidasUnica(Trim(linha[..m.inicio]));
  }

  lemma MantidasUnica(l: string)
    ensures Mantidas([l]) == (match LinhaHistorico(l) case None => [] case Some(h) => [h])
  {
    assert [l][..0] == [];
  }

  /** Once the amount is known, the rest of the block only adds its kept lines to the history. */
  lemma DepoisDoValor(s: EstadoBloco, a: seq<string>, b: seq<string>, formato: string -> bool)
    requires PercorrerBloco(s, a, formato).valor != 0
    ensures PercorrerBloco(s, a + b, formato)
         == PercorrerBloco(s, a, formato).(historico := PercorrerBloco(s, a, formato).historico + Mantidas(b))
  {
    var q := PercorrerBloco(s, a, formato);
    PercorrerBlocoConcat(s, a, b, formato);
    HistoricoComValor(q, b, formato);
    ValorFixo(q, b, formato);
  }

  lemma UltimoPasso(s: EstadoBloco, a: seq<string>, l: string, formato: string -> bool)
    ensures PercorrerBloco(s, a + [l], formato) == PassoBloco(PercorrerBloco(s, a, formato), l, formato)
  {
    assert (a + [l])[..|a|] == a;
  }

  /** Up to the first line that ends in an amount, while none is known. */
  lemma AteOPrimeiroValor(s: EstadoBloco, antes: seq<string>, l: string, formato: string -> bool)
    requires s.valor == 0
    requires forall i :: 0 <= i < |antes| ==> CasarCom(antes[i], formato).None?
    requires CasarCom(l, formato).Some?
    ensures var m := CasarCom(l, formato).value;
      PercorrerBloco(s, antes + [l], formato)
      == EstadoBloco(ConverterValorSeguro(m.texto), m.tipo, s.historico + Mantidas(antes) + Mantidas([Trim(l[..m.inicio])]))
  {
    HistoricoSemValor(s, antes, formato);
    PassoComValor(PercorrerBloco(s, antes, formato), l, formato);
    UltimoPasso(s, antes, l, formato);
  }

  /**
   * A fresh block whose first line ending in an amount is `l`, after the lines
   * `antes`: the amount and the mark are read from `l`, and the history is the kept
   * lines before it, the text before the amount on `l`, and the kept lines after
   * it, in order, joined by " | ".
   */
  lemma BlocoComValor(t: TransacaoExtrato, antes: seq<string>, l: string, depois: seq<string>, formato: string -> bool)
    requires t.valor == 0
    requires forall i :: 0 <= i < |antes| ==> CasarCom(antes[i], formato).None?
    requires CasarCom(l, formato).Some? && ConverterValorSeguro(CasarCom(l, formato).value.texto) != 0
    ensures var m := CasarCom(l, formato).value;
      BlocoFinal(t, antes + [l] + depois, formato)
      == t.(valor := ConverterValorSeguro(m.texto), tipo := m.tipo,
            historico := Trim(Join(" | ", Mantidas(antes) + Mantidas([Trim(l[..m.inicio])]) + Mantidas(depois))))
  {
    var m := CasarCom(l, formato).value;
    var s0 := EstadoBloco(t.valor, t.tipo, []);
    var h := Mantidas(antes) + Mantidas([Trim(l[..m.inicio])]);
    AteOPrimeiroValor(s0, antes, l, formato);
    assert [] + Mantidas(antes) + Mantidas([Trim(l[..m.inicio])]) == h;
    var q := PercorrerBloco(s0, antes + [l], formato);
    assert q == EstadoBloco(ConverterValorSeguro(m.texto), m.tipo, h);
    DepoisDoValor(s0, antes + [l], depois, formato);
    assert PercorrerBloco(s0, antes + [l] + depois, formato) == q.(historico := h + Mantidas(depois));
  }

  /**
   * The pattern as written turns the block "1000.20 C" into an amount of 0.20 with
   * the history "1"; the corrected pattern reads 1000.20 and keeps no history.
   */
  lemma BlocoMilComoEscrito(d: DateTime)
    ensures BlocoFinal(TransacaoNova(d), ["1000.20 C"], ValorComoEscrito) == TransacaoExtrato(d, "1", 20, 'C')
  {
    CasarValorComoEscritoAposBrancoOuDigito();
    ConverterZeroVinte();
    HistoricoMilComoEscrito();
    BlocoDeUmaLinha(TransacaoNova(d), "1000.20 C", ValorComoEscrito, Casamento(1, "000.20", 'C'), 20);
  }

  lemma HistoricoMilComoEscrito()
    ensures Trim(Join(" | ", Mantidas([Trim("1000.20 C"[..1])]))) == "1"
  {
    assert "1000.20 C"[..1] == "1";
    TrimAposBrancos("", "1");
    assert "" + "1" == "1";
    assert !IsBlank("1") by { assert !IsWhiteSpace("1"[0]); }
    assert LinhaHistorico("1") == Some("1");
    MantidasUnica("1");
    assert Join(" | ", ["1"]) == "1";
  }

  lemma BlocoMilCorrigido(d: DateTime)
    ensures BlocoFinal(TransacaoNova(d), ["1000.20 C"], ValorCorrigido) == TransacaoExtrato(d, "", 100020, 'C')
  {
    CorrigidoCasaMil();
    ConverterMilVinte();
    HistoricoMilCorrigido();
    BlocoDeUmaLinha(TransacaoNova(d), "1000.20 C", ValorCorrigido, Casamento(0, "1000.20", 'C'), 100020);
  }

  /** A fresh block of one line that ends in the amount `m`, worth `v`. */
  lemma BlocoDeUmaLinha(t: TransacaoExtrato, l: string, formato: string -> bool, m: Casamento, v: int)
    requires t.valor == 0 && CasarCom(l, formato) == Some(m) && ConverterValorSeguro(m.texto) == v && v != 0
    ensures BlocoFinal(t, [l], formato) == t.(valor := v, tipo := m.tipo, historico := Trim(Join(" | ", Mantidas([Trim(l[..m.inicio])]))))
  {
    BlocoComValor(t, [], l, [], formato);
    assert [] + [l] + [] == [l];
    assert Mantidas([]) + Mantidas([Trim(l[..m.inicio])]) + Mantidas([]) == Mantidas([Trim(l[..m.inicio])]);
  }

  lemma HistoricoMilCorrigido()
    ensures Trim(Join(" | ", Mantidas([Trim("1000.20 C"[..0])]))) == ""
  {
    assert "1000.20 C"[..0] == "";
    assert LinhaHistorico("").None?;
    MantidasUnica("");
  }

  lemma TrimStartUnico(s: string, r: string)
    requires |r| <= |s| && r == s[|s| - |r|..]
    requires forall i :: 0 <= i < |s| - |r| ==> IsWhiteSpace(s[i])
    requires r == [] || !IsWhiteSpace(r[0])
    ensures TrimStart(s) == r
  {
    var t := TrimStart(s);
    assert |t| >= |r| by {
      if r != [] {
        assert s[|s| - |r|] == r[0];
      }
    }
    assert |r| >= |t| by {
      if t != [] {
        assert s[|s| - |t|] == t[0];
      }
    }
  }

  /** Leading blanks before a word that neither starts nor ends in white space are trimmed away. */
  lemma TrimAposBrancos(w: string, p: string)
    requires IsBlank(w) && p != [] && !IsWhiteSpace(p[0]) && !IsWhiteSpace(p[|p| - 1])
    ensures Trim(w + p) == p
  {
    TrimPartes(w + p);
    TrimStartUnico(w + p, p);
    TrimEndUnico(p, p);
  }

  lemma LinhaHistoricoPix()
    ensures LinhaHistorico("DOC.: Pix").None?
  {
    var l := "DOC.: Pix";
    assert l[0] == 'D';
    assert l[..5] == "DOC.:";
    assert l[5..] == " " + "Pix";
    TrimAposBrancos(" ", "Pix");
  }

  /** The comparisons are case-insensitive. */
  lemma LinhaHistoricoPixMaiusculo()
    ensures LinhaHistorico("doc.:PIX").None?
  {
    var l := "doc.:PIX";
    PrefixoDocMinusculo();
    var r := l[5..];
    assert r == "PIX";
    TrimPix();
    PixMaiusculo();
    assert Trim(r) == "PIX";
    assert EqualsIgnoreCase(Trim(r), "Pix");
  }

  lemma PrefixoDocMinusculo()
    ensures !IsBlank("doc.:PIX") && !StartsWith("doc.:PIX", "***") && StartsWithIgnoreCase("doc.:PIX", "DOC.:")
  {
    var l := "doc.:PIX";
    assert l[0] == 'd';
    assert l[..5] == "doc.:";
    assert ToUpperAscii('d') == 'D' && ToUpperAscii('o') == 'O' && ToUpperAscii('c') == 'C';
  }

  lemma TrimPix()
    ensures Trim("PIX") == "PIX"
  {
    TrimAposBrancos("", "PIX");
    assert "" + "PIX" == "PIX";
  }

  lemma PixMaiusculo()
    ensures EqualsIgnoreCase("PIX", "Pix")
  {
    assert ToUpperAscii('i') == 'I' && ToUpperAscii('x') == 'X';
  }

  lemma LinhaHistoricoDoc()
    ensures LinhaHistorico("DOC.: 123") == Some("123")
  {
    var l := "DOC.: 123";
    assert l[0] == 'D';
    assert l[..5] == "DOC.:";
    assert l[5..] == " " + "123";
    TrimAposBrancos(" ", "123");
    assert !EqualsIgnoreCase("123", "Pix");
    assert !StartsWithIgnoreCase("123", "REM.:");
  }

  lemma LinhaHistoricoRem()
    ensures LinhaHistorico("REM.: JOSE") == Some("REM: JOSE")
  {
    var l := "REM.: JOSE";
    assert l[0] == 'R';
    assert l[..5] == "REM.:";
    assert !StartsWithIgnoreCase(l, "DOC.:");
    assert l[5..] == " " + "JOSE";
    TrimAposBrancos(" ", "JOSE");
    assert "REM: " + "JOSE" == "REM: JOSE";
    assert !IsBlank("REM: JOSE") by {
      assert "REM: JOSE"[0] == 'R';
    }
  }

  // ---------------------------------------------------------------------------
  // Splitting a page's lines into blocks: the line loop of `LerArquivoPdf`
  // ---------------------------------------------------------------------------

  /** Header and balance lines, which the splitting skips. */
  predicate Ignorada(l: string) {
    IsBlank(l) || StartsWith(l, "SICOOB") || ContainsIgnoreCase(l, "EXTRATO CONTA CORRENTE")
    || StartsWithIgnoreCase(l, "SALDO")
  }

  /** `^(\d{2}/\d{2})`: the line starts with a day and a month. */
  predicate ComecaComData(l: string) {
    |l| >= 5 && IsDigit(l[0]) && IsDigit(l[1]) && l[2] == '/' && IsDigit(l[3]) && IsDigit(l[4])
  }

  /** The date "dd/MM" of the line in the year `ano`, or `DateTime.MinValue` when that is no date. */
  function DataDaLinha(l: string, ano: int): (d: DateTime)
    requires ComecaComData(l)
    ensures d == MinValue || (IsValid(d) && d.year == ano)
  {
    var dia := 10 * DigitValue(l[0]) + DigitValue(l[1]);
    var mes := 10 * DigitValue(l[3]) + DigitValue(l[4]);
    FromParts(ano, mes, dia).GetOr(MinValue)
  }

  /** The open transaction, its block's lines, and the transactions emitted so far. */
  datatype EstadoPagina = EstadoPagina(atual: Option<TransacaoExtrato>, bloco: seq<string>, emitidas: seq<TransacaoExtrato>)

  /** A finished transaction is kept only when it carries a positive amount. */
  function Emitir(emitidas: seq<TransacaoExtrato>, t: TransacaoExtrato): (r: seq<TransacaoExtrato>)
    ensures t.valor > 0 ==> r == emitidas + [t]
    ensures t.valor <= 0 ==> r == emitidas
  {
    if t.valor > 0 then emitidas + [t] else emitidas
  }

  /** The emitted transactions once the open one, if any, is finished with its block. */
  function Fechar(s: EstadoPagina, formato: string -> bool): (r: seq<TransacaoExtrato>)
    ensures s.atual.None? ==> r == s.emitidas
    ensures s.atual.Some? ==> r == Emitir(s.emitidas, BlocoFinal(s.atual.value, s.bloco, formato))
  {
    match s.atual
    case None => s.emitidas
    case Some(t) => Emitir(s.emitidas, BlocoFinal(t, s.bloco, formato))
  }

  /** One iteration of the line loop, for the page's year `ano`. */
  function PassoPagina(s: EstadoPagina, linha: string, ano: int, formato: string -> bool): EstadoPagina {
    var l := Trim(linha);
    if Ignorada(l) then s
    else if ComecaComData(l) then
      var emitidas := Fechar(s, formato);
      var resto := Trim(l[5..]);
      if StartsWithIgnoreCase(resto, "SALDO") then EstadoPagina(None, [], emitidas)
      else EstadoPagina(Some(TransacaoNova(DataDaLinha(l, ano))), if resto == [] then [] else [resto], emitidas)
    else if s.atual.Some? then s.(bloco := s.bloco + [l])
    else s
  }

  /**
   * The cases of one iteration: skipped lines change nothing; a date line finishes
   * the open transaction and opens a new one, unless the rest of the line starts
   * with "SALDO", which leaves none open; any other line joins the open block, or
   * is dropped when no transaction is open.
   */
  lemma PassoPaginaCasos(s: EstadoPagina, linha: string, ano: int, formato: string -> bool)
    ensures Ignorada(Trim(linha)) ==> PassoPagina(s, linha, ano, formato) == s
    ensures !Ignorada(Trim(linha)) && ComecaComData(Trim(linha)) ==> PassoPagina(s, linha, ano, formato).emitidas == Fechar(s, formato)
    ensures (!Ignorada(Trim(linha)) && ComecaComData(Trim(linha))
             && StartsWithIgnoreCase(Trim(Trim(linha)[5..]), "SALDO")) ==>
      PassoPagina(s, linha, ano, formato).atual.None? && PassoPagina(s, linha, ano, formato).bloco == []
    ensures (!Ignorada(Trim(linha)) && ComecaComData(Trim(linha))
             && !StartsWithIgnoreCase(Trim(Trim(linha)[5..]), "SALDO")) ==>
      PassoPagina(s, linha, ano, formato).atual == Some(TransacaoNova(DataDaLinha(Trim(linha), ano)))
      && PassoPagina(s, linha, ano, formato).bloco == (if Trim(Trim(linha)[5..]) == [] then [] else [Trim(Trim(linha)[5..])])
    ensures !Ignorada(Trim(linha)) && !ComecaComData(Trim(linha)) && s.atual.None? ==> PassoPagina(s, linha, ano, formato) == s
    ensures (!Ignorada(Trim(linha)) && !ComecaComData(Trim(linha)) && s.atual.Some?) ==>
      PassoPagina(s, linha, ano, formato) == s.(bloco := s.bloco + [Trim(linha)])
  {
  }

  /** The line loop over the first lines of a page. */
  function PercorrerPagina(s: EstadoPagina, linhas: seq<string>, ano: int, formato: string -> bool): EstadoPagina
    decreases |linhas|
  {
    if linhas == [] then s else PassoPagina(PercorrerPagina(s, linhas[..|linhas| - 1], ano, formato), linhas[|linhas| - 1], ano, formato)
  }

  /** The transactions a page adds to the list `emitidas`: the line loop, then the last transaction finished. */
  function LerPaginaDe(emitidas: seq<TransacaoExtrato>, linhas: seq<string>, ano: int, formato: string -> bool): seq<TransacaoExtrato> {
    Fechar(PercorrerPagina(EstadoPagina(None, [], emitidas), linhas, ano, formato), formato)
  }

  /** One page of the statement: its reconstructed lines, and the year read for it. */
  datatype Pagina = Pagina(linhas: seq<string>, ano: int)

  /** `LerArquivoPdf` over the pages, from the first to the last. */
  function LerPaginas(paginas: seq<Pagina>, formato: string -> bool): seq<TransacaoExtrato>
    decreases |paginas|
  {
    if paginas == [] then []
    else
      var p := paginas[|paginas| - 1];
      LerPaginaDe(LerPaginas(paginas[..|paginas| - 1], formato), p.linhas, p.ano, formato)
  }

  /** Finishing the open transaction, if any: its block is processed and it is kept when its amount is positive. */
  method FecharBloco(transacaoAtual: Option<TransacaoExtrato>, linhasDoBloco: seq<string>, lista: seq<TransacaoExtrato>)
    returns (r: seq<TransacaoExtrato>)
    ensures r == Fechar(EstadoPagina(transacaoAtual, linhasDoBloco, lista), ValorComoEscrito)
  {
    r := lista;
    if transacaoAtual.Some? {
      var t := ProcessarBlocoFinal(transacaoAtual.value, linhasDoBloco);
      if t.valor > 0 {
        r := r + [t];
      }
    }
  }

  /**
   * The body of the line loop for one line: the open transaction, its block's
   * lines and the list, before and after. Skipped lines are the loop's `continue`s.
   */
  method LerLinha(transacaoAtual: Option<TransacaoExtrato>, linhasDoBloco: seq<string>, lista: seq<TransacaoExtrato>,
                  linha: string, ano: int)
    returns (atual: Option<TransacaoExtrato>, bloco: seq<string>, r: seq<TransacaoExtrato>)
    ensures EstadoPagina(atual, bloco, r) == PassoPagina(EstadoPagina(transacaoAtual, linhasDoBloco, lista), linha, ano, ValorComoEscrito)
  {
    atual, bloco, r := transacaoAtual, linhasDoBloco, lista;
    var linhaLimpa := Trim(linha);
    if IsBlank(linhaLimpa) || StartsWith(linhaLimpa, "SICOOB") {
      return;
    }
    if ContainsIgnoreCase(linhaLimpa, "EXTRATO CONTA CORRENTE") || StartsWithIgnoreCase(linhaLimpa, "SALDO") {
      return;
    }
    if ComecaComData(linhaLimpa) {
      r := FecharBloco(atual, bloco, r);
      atual := None;
      var restoDaLinha := Trim(linhaLimpa[5..]);
      if StartsWithIgnoreCase(restoDaLinha, "SALDO") {
        bloco := [];
        return;
      }
      atual := Some(TransacaoNova(DataDaLinha(linhaLimpa, ano)));
      bloco := [];
      if restoDaLinha != [] {
        bloco := bloco + [restoDaLinha];
      }
    } else if atual.Some? {
      bloco := bloco + [linhaLimpa];
    }
  }

  /** The line loop of one page, appending to `lista`, then the final block. */
  method LerPagina(lista: seq<TransacaoExtrato>, linhas: seq<string>, ano: int) returns (r: seq<TransacaoExtrato>)
    ensures r == LerPaginaDe(lista, linhas, ano, ValorComoEscrito)
  {
    r := lista;
    var transacaoAtual: Option<TransacaoExtrato> := None;
    var linhasDoBloco: seq<string> := [];
    for i := 0 to |linhas|
      invariant PercorrerPagina(EstadoPagina(None, [], lista), linhas[..i], ano, ValorComoEscrito) == EstadoPagina(transacaoAtual, linhasDoBloco, r)
    {
      assert linhas[..i + 1][..i] == linhas[..i];
      transacaoAtual, linhasDoBloco, r := LerLinha(transacaoAtual, linhasDoBloco, r, linhas[i], ano);
    }
    assert linhas[..|linhas|] == linhas;
    r := FecharBloco(transacaoAtual, linhasDoBloco, r);
  }

  /** `LerArquivoPdf`, from the reconstructed lines of each page and the year read for it. */
  method LerArquivo(paginas: seq<Pagina>) returns (listaTransacoes: seq<TransacaoExtrato>)
    ensures listaTransacoes == LerPaginas(paginas, ValorComoEscrito)
  {
    listaTransacoes := [];
    for k := 0 to |paginas|
      invariant listaTransacoes == LerPaginas(paginas[..k], ValorComoEscrito)
    {
      assert paginas[..k + 1][..k] == paginas[..k];
      listaTransacoes := LerPagina(listaTransacoes, paginas[k].linhas, paginas[k].ano);
    }
    assert paginas[..|paginas|] == paginas;
  }

  lemma {:induction false} PercorrerPaginaConcat(s: EstadoPagina, a: seq<string>, b: seq<string>, ano: int, formato: string -> bool)
    ensures PercorrerPagina(s, a + b, ano, formato) == PercorrerPagina(PercorrerPagina(s, a, ano, formato), b, ano, formato)
    decreases |b|
  {
    if b == [] {
      assert a + b == a;
    } else {
      assert (a + b)[..|a + b| - 1] == a + b[..|b| - 1];
      PercorrerPaginaConcat(s, a, b[..|b| - 1], ano, formato);
    }
  }

  /** Header and balance lines can be removed from a page without changing what it yields. */
  lemma LinhaIgnoradaRemovivel(s: EstadoPagina, a: seq<string>, l: string, b: seq<string>, ano: int, formato: string -> bool)
    requires Ignorada(Trim(l))
    ensures PercorrerPagina(s, a + [l] + b, ano, formato) == PercorrerPagina(s, a + b, ano, formato)
  {
    PercorrerPaginaConcat(s, a + [l], b, ano, formato);
    PercorrerPaginaConcat(s, a, [l], ano, formato);
    PercorrerPaginaConcat(s, a, b, ano, formato);
    assert [l][..0] == [];
  }

  predicate Positivas(ts: seq<TransacaoExtrato>) {
    forall i :: 0 <= i < |ts| ==> ts[i].valor > 0
  }

  /** One iteration only appends to the emitted list, and only transactions with a positive amount. */
  lemma PassoSoAcrescenta(s: EstadoPagina, linha: string, ano: int, formato: string -> bool)
    requires Positivas(s.emitidas)
    ensures Positivas(PassoPagina(s, linha, ano, formato).emitidas) && s.emitidas <= PassoPagina(s, linha, ano, formato).emitidas
  {
    var l := Trim(linha);
    if !Ignorada(l) && ComecaComData(l) {
      FecharAcrescenta(s, formato);
      assert PassoPagina(s, linha, ano, formato).emitidas == Fechar(s, formato);
    } else {
      assert PassoPagina(s, linha, ano, formato).emitidas == s.emitidas;
    }
  }

  lemma EmitirAcrescenta(emitidas: seq<TransacaoExtrato>, t: TransacaoExtrato)
    requires Positivas(emitidas)
    ensures Positivas(Emitir(emitidas, t)) && emitidas <= Emitir(emitidas, t)
  {
    if t.valor > 0 {
      var r := emitidas + [t];
      assert forall i :: 0 <= i < |r| ==> r[i] == (if i < |emitidas| then emitidas[i] else t);
    }
  }

  /** Finishing the open transaction only appends, and only one with a positive amount. */
  lemma FecharAcrescenta(s: EstadoPagina, formato: string -> bool)
    requires Positivas(s.emitidas)
    ensures Positivas(Fechar(s, formato)) && s.emitidas <= Fechar(s, formato)
  {
    if s.atual.Some? {
      EmitirAcrescenta(s.emitidas, BlocoFinal(s.atual.value, s.bloco, formato));
    }
  }

  /**
   * The line loop only appends to the emitted list, and only transactions with a
   * positive amount.
   */
  lemma {:induction false} PaginaSoAcrescenta(s: EstadoPagina, linhas: seq<string>, ano: int, formato: string -> bool)
    requires Positivas(s.emitidas)
    ensures Positivas(PercorrerPagina(s, linhas, ano, formato).emitidas) && Positivas(Fechar(PercorrerPagina(s, linhas, ano, formato), formato))
    ensures s.emitidas <= PercorrerPagina(s, linhas, ano, formato).emitidas <= Fechar(PercorrerPagina(s, linhas, ano, formato), formato)
    decreases |linhas|
  {
    if linhas != [] {
      var r := PercorrerPagina(s, linhas[..|linhas| - 1], ano, formato);
      PaginaSoAcrescenta(s, linhas[..|linhas| - 1], ano, formato);
      PassoSoAcrescenta(r, linhas[|linhas| - 1], ano, formato);
    }
    FecharAcrescenta(PercorrerPagina(s, linhas, ano, formato), formato);
  }

  /** Every transaction read from the statement carries a positive amount. */
  lemma {:induction false} TransacoesPositivas(paginas: seq<Pagina>, formato: string -> bool)
    ensures Positivas(LerPaginas(paginas, formato))
    decreases |paginas|
  {
    if paginas != [] {
      var p := paginas[|paginas| - 1];
      TransacoesPositivas(paginas[..|paginas| - 1], formato);
      PaginaSoAcrescenta(EstadoPagina(None, [], LerPaginas(paginas[..|paginas| - 1], formato)), p.linhas, p.ano, formato);
    }
  }

  lemma EmitirDesloca(emitidas: seq<TransacaoExtrato>, e: seq<TransacaoExtrato>, t: TransacaoExtrato)
    ensures Emitir(e + emitidas, t) == e + Emitir(emitidas, t)
  {
    if t.valor > 0 {
      assert e + emitidas + [t] == e + (emitidas + [t]);
    }
  }

  lemma FecharDesloca(s: EstadoPagina, e: seq<TransacaoExtrato>, formato: string -> bool)
    ensures Fechar(s.(emitidas := e + s.emitidas), formato) == e + Fechar(s, formato)
  {
    if s.atual.Some? {
      var t := BlocoFinal(s.atual.value, s.bloco, formato);
      EmitirDesloca(s.emitidas, e, t);
    }
  }

  lemma PassoDesloca(s: EstadoPagina, e: seq<TransacaoExtrato>, linha: string, ano: int, formato: string -> bool)
    ensures PassoPagina(s.(emitidas := e + s.emitidas), linha, ano, formato)
         == PassoPagina(s, linha, ano, formato).(emitidas := e + PassoPagina(s, linha, ano, formato).emitidas)
  {
    var l := Trim(linha);
    if !Ignorada(l) && ComecaComData(l) {
      FecharDesloca(s, e, formato);
    }
  }

  /** The list read so far does not affect what the next lines yield: they are appended after it. */
  lemma {:induction false} PaginaDesloca(s: EstadoPagina, e: seq<TransacaoExtrato>, linhas: seq<string>, ano: int, formato: string -> bool)
    ensures PercorrerPagina(s.(emitidas := e + s.emitidas), linhas, ano, formato)
         == PercorrerPagina(s, linhas, ano, formato).(emitidas := e + PercorrerPagina(s, linhas, ano, formato).emitidas)
    decreases |linhas|
  {
    if linhas != [] {
      PaginaDesloca(s, e, linhas[..|linhas| - 1], ano, formato);
      PassoDesloca(PercorrerPagina(s, linhas[..|linhas| - 1], ano, formato), e, linhas[|linhas| - 1], ano, formato);
    }
  }

  /** The statement's transactions are those of each page in turn, each page in line order. */
  lemma LerPaginasPorPagina(paginas: seq<Pagina>, p: Pagina, formato: string -> bool)
    ensures LerPaginas(paginas + [p], formato) == LerPaginas(paginas, formato) + LerPaginaDe([], p.linhas, p.ano, formato)
  {
    assert (paginas + [p])[..|paginas|] == paginas;
    var s := EstadoPagina(None, [], []);
    var e := LerPaginas(paginas, formato);
    PaginaDesloca(s, e, p.linhas, p.ano, formato);
    assert s.(emitidas := e + s.emitidas) == EstadoPagina(None, [], e);
    FecharDesloca(PercorrerPagina(s, p.linhas, p.ano, formato), e, formato);
  }
}
