/**
 * FormatadorUtil: money as text. formatarMoeda prints an amount of cents
 * with the pattern "#,##0.00", '.' grouping and ',' decimals, after
 * "R$ "; parseMoeda reads such text back into a BigDecimal, modelled as an
 * unscaled integer and a scale.
 */
module Formatador {
  import opened Wrappers
  import opened Textos
  import opened Decimais

  /** A BigDecimal: unscaled * 10^-escala. */
  datatype Decimal = Decimal(unscaled: int, escala: nat)

  /** BigDecimal.ZERO. */
  const ZERO := Decimal(0, 0)

  /** Only ASCII digits and dots, the chars the parser keeps. */
  predicate DigitosEPontos(s: string)
  {
    forall i :: 0 <= i < |s| ==> EhDigito(s[i]) || s[i] == '.'
  }

  /** A '.' stands exactly at the positions a multiple of 4 from the right end. */
  predicate PontosEmGrupos(r: string)
  {
    forall i :: 0 <= i < |r| ==> (r[i] == '.' <==> (|r| - i) % 4 == 0)
  }

  /** Three more digits after a '.' keep the dots at every fourth position from the right. */
  lemma PontosEmGruposPasso(g: string, t: string)
    requires PontosEmGrupos(g) && |t| == 3 && SoDigitos(t)
    ensures PontosEmGrupos(g + "." + t)
  {
    var r := g + "." + t;
    forall i | 0 <= i < |r| ensures r[i] == '.' <==> (|r| - i) % 4 == 0 {
      if i < |g| {
        assert r[i] == g[i] && |r| - i == (|g| - i) + 4;
      } else if i > |g| {
        assert r[i] == t[i - |g| - 1] && 1 <= |r| - i <= 3;
      }
    }
  }

  /** A run of digits with a '.' before each group of three, counted from the right. */
  function Agrupa(s: string): (r: string)
    requires SoDigitos(s)
    ensures DigitosEPontos(r)
    ensures |s| <= 3 ==> r == s
    ensures |s| > 3 ==> '.' in r
    ensures |s| > 0 ==> |r| == |s| + (|s| - 1) / 3
    ensures PontosEmGrupos(r)
    decreases |s|
  {
    if |s| <= 3 then
      assert forall i :: 0 <= i < |s| ==> EhDigito(s[i]) && 1 <= |s| - i <= 3;
      s
    else
      var g := Agrupa(s[..|s| - 3]);
      var t := s[|s| - 3..];
      var r := g + "." + t;
      assert r[|g|] == '.';
      PontosEmGruposPasso(g, t);
      assert DigitosEPontos(r) by {
        forall i | 0 <= i < |r| ensures EhDigito(r[i]) || r[i] == '.' {
          if i < |g| { assert r[i] == g[i]; } else if i > |g| { assert r[i] == t[i - |g| - 1]; }
        }
      }
      r
  }

  /** Deleting the grouping dots gives the digits back: the grouping is the inverse of String.replace(".", ""). */
  lemma {:induction false} AgrupaSemPontos(s: string)
    requires SoDigitos(s)
    ensures RemoveOcorrencias(Agrupa(s), ".") == s
    decreases |s|
  {
    if |s| <= 3 {
      RemoveSemOcorrencia(s, ".");
    } else {
      var cabeca, cauda := s[..|s| - 3], s[|s| - 3..];
      var g := Agrupa(cabeca);
      AgrupaSemPontos(cabeca);
      RemoveSemOcorrencia(cauda, ".");
      RemovePontoConcat(g, "." + cauda);
      assert ("." + cauda)[..1] == "." && ("." + cauda)[1..] == cauda;
      assert g + "." + cauda == g + ("." + cauda);
      assert cabeca + cauda == s;
    }
  }

  /** Deleting dots distributes over concatenation. */
  lemma {:induction false} RemovePontoConcat(a: string, b: string)
    ensures RemoveOcorrencias(a + b, ".") == RemoveOcorrencias(a, ".") + RemoveOcorrencias(b, ".")
  {
    if a == [] {
      assert a + b == b;
    } else {
      assert (a + b)[1..] == a[1..] + b;
      assert (a + b)[..1] == a[..1];
      RemovePontoConcat(a[1..], b);
    }
  }

  /** The two decimals of an amount of cents. */
  function Centavos(v: int): (d: string)
    ensures |d| == 2 && SoDigitos(d) && ValorDigitos(d) == Abs(v) % 100
  {
    var c := Abs(v) % 100;
    var d := [DigitoDe(c / 10), DigitoDe(c % 10)];
    assert d[..1] == [DigitoDe(c / 10)] && d[..1][..0] == [];
    assert ValorDigitos(d[..1]) == c / 10;
    assert ValorDigitos(d) == 10 * (c / 10) + c % 10;
    d
  }

  /** DecimalFormat's negative prefix. */
  function Sinal(v: int): string
  {
    if v < 0 then "-" else ""
  }

  /** The reais of an amount of cents, grouped. */
  function Reais(v: int): (r: string)
    ensures DigitosEPontos(r) && |r| > 0
  {
    Agrupa(Digitos(Abs(v) / 100))
  }

  /** The amount without its sign: the grouped reais, ',' and the two decimals. */
  function Magnitude(v: int): string
  {
    Reais(v) + "," + Centavos(v)
  }

  /** What follows "R$ ": the sign and the magnitude. */
  function Corpo(v: int): string
  {
    Sinal(v) + Magnitude(v)
  }

  /**
   * formatarMoeda: "R$ 0,00" for a missing amount, otherwise "R$ ", the
   * sign, the grouped reais and the two decimals of the cents.
   */
  function FormatarMoeda(valor: Option<int>): string
  {
    match valor
    case None => "R$ 0,00"
    case Some(v) => "R$ " + Corpo(v)
  }

  /** replaceAll("[^\\d.]", ""): keeps the ASCII digits and the dots, in order. */
  function SoNumerico(s: string): (r: string)
    ensures DigitosEPontos(r)
    ensures |r| <= |s|
  {
    if s == [] then []
    else if EhDigito(s[0]) || s[0] == '.' then [s[0]] + SoNumerico(s[1..])
    else SoNumerico(s[1..])
  }

  lemma {:induction false} SoNumericoConcat(a: string, b: string)
    ensures SoNumerico(a + b) == SoNumerico(a) + SoNumerico(b)
  {
    if a == [] {
      assert a + b == b;
    } else {
      assert (a + b)[1..] == a[1..] + b;
      SoNumericoConcat(a[1..], b);
    }
  }

  /** A single char is kept exactly when it is an ASCII digit or a dot. */
  lemma SoNumericoUmChar(c: char)
    ensures SoNumerico([c]) == if EhDigito(c) || c == '.' then [c] else []
  {
    assert [c][1..] == [];
  }

  /** A text with no digit and no dot is deleted entirely. */
  lemma {:induction false} SoNumericoDescarta(s: string)
    requires forall i :: 0 <= i < |s| ==> !EhDigito(s[i]) && s[i] != '.'
    ensures SoNumerico(s) == []
  {
    if s != [] {
      SoNumericoDescarta(s[1..]);
    }
  }

  /** A string of digits and dots is left as it is. */
  lemma {:induction false} SoNumericoMantem(s: string)
    requires DigitosEPontos(s)
    ensures SoNumerico(s) == s
  {
    if s != [] {
      SoNumericoMantem(s[1..]);
    }
  }

  /**
   * new BigDecimal(s) for a string of digits and dots: an integer part,
   * optionally a '.' and a fraction part, at least one digit in all. The
   * unscaled value is read from all the digits and the scale is the number
   * of fraction digits; anything else is a NumberFormatException.
   */
  function LerDecimal(s: string): (r: Option<Decimal>)
    requires DigitosEPontos(s)
    ensures r.Some? ==> r.value.unscaled >= 0
  {
    if '.' !in s then
      if s == [] then None else Some(Decimal(ValorDigitos(s), 0))
    else
      var k := Primeiro(s, '.');
      var inteira, fracao := s[..k], s[k + 1..];
      if '.' in fracao || |inteira| + |fracao| == 0 then None
      else Some(Decimal(ValorDigitos(inteira + fracao), |fracao|))
  }

  /** An integer part, a dot and a fraction part, with some digit: the value they spell, at the fraction's scale. */
  lemma LerDecimalNumeral(inteira: string, fracao: string)
    requires SoDigitos(inteira) && SoDigitos(fracao) && |inteira| + |fracao| > 0
    ensures DigitosEPontos(inteira + "." + fracao)
    ensures LerDecimal(inteira + "." + fracao) == Some(Decimal(ValorDigitos(inteira + fracao), |fracao|))
  {
    var s := inteira + "." + fracao;
    var k := |inteira|;
    assert s[k] == '.';
    assert '.' !in inteira;
    assert s[..k] == inteira;
    assert Primeiro(s, '.') == k;
    assert s[k + 1..] == fracao;
    assert '.' !in fracao;
    assert '.' in s;
    ValorDigitosConcat(inteira, fracao);
  }

  /** A numeral without a dot, such as a typed "12", reads as its value at scale 0. */
  lemma LerDecimalInteiro(s: string)
    requires SoDigitos(s) && |s| > 0
    ensures DigitosEPontos(s)
    ensures LerDecimal(s) == Some(Decimal(ValorDigitos(s), 0))
  {
    assert '.' !in s by {
      forall k | 0 <= k < |s| ensures s[k] != '.' { assert EhDigito(s[k]); }
    }
  }

  /** The empty text and a lone dot hold no digit: not a number. */
  lemma LerDecimalSemDigitos()
    ensures LerDecimal("") == None
    ensures LerDecimal(".") == None
  {
    assert Primeiro(".", '.') == 0;
    assert "."[1..] == [];
  }

  /** "12" reads as 12 at scale 0 and "12.5" as 125 at scale 1. */
  lemma LerDecimalExemplos()
    ensures LerDecimal("12") == Some(Decimal(12, 0))
    ensures LerDecimal("12.5") == Some(Decimal(125, 1))
  {
    LerDecimalInteiro("12");
    assert "12"[..1] == "1";
    LerDecimalNumeral("12", "5");
    assert "12" + "." + "5" == "12.5";
    assert "12" + "5" == "125";
    assert "125"[..2] == "12" && "125"[..2][..1] == "1";
  }

  /** A second dot after the first one: not a number. */
  lemma LerDecimalDoisPontos(s: string, i: nat, j: nat)
    requires DigitosEPontos(s)
    requires i < j < |s| && s[i] == '.' && s[j] == '.'
    ensures LerDecimal(s) == None
  {
    var k := Primeiro(s, '.');
    if k < i {
      assert s[k + 1..][i - k - 1] == '.';
    } else {
      assert s[k + 1..][j - k - 1] == '.';
    }
  }

  /**
   * parseMoeda: zero for a missing or blank text; otherwise "R$" removed,
   * trimmed, ',' turned into '.', everything but digits and dots dropped,
   * and the rest read as a BigDecimal, zero when it is not one.
   */
  function ParseMoeda(valor: Option<string>): (r: Decimal)
    ensures r.unscaled >= 0
  {
    match valor
    case None => ZERO
    case Some(s) =>
      if EmBranco(s) then ZERO
      else
        match LerDecimal(Limpa(s))
        case None => ZERO
        case Some(d) => d
  }

  /** The three normalisation steps of parseMoeda, in order. */
  function Limpa(s: string): (r: string)
    ensures DigitosEPontos(r)
  {
    SoNumerico(SubstituiChar(Trim(RemoveOcorrencias(s, "R$")), ',', '.'))
  }

  /** The chars a formatted amount is made of. */
  predicate CharMoeda(c: char)
  {
    EhDigito(c) || c == '.' || c == ',' || c == '-'
  }

  lemma MagnitudeChars(v: int)
    ensures |Magnitude(v)| > 0
    ensures forall i :: 0 <= i < |Magnitude(v)| ==> EhDigito(Magnitude(v)[i]) || Magnitude(v)[i] == '.' || Magnitude(v)[i] == ','
  {
    var g, d := Reais(v), Centavos(v);
    var m := Magnitude(v);
    forall i | 0 <= i < |m|
      ensures EhDigito(m[i]) || m[i] == '.' || m[i] == ','
    {
      if i < |g| {
        assert m[i] == g[i];
      } else if i > |g| {
        assert m[i] == d[i - |g| - 1];
      }
    }
  }

  lemma CorpoChars(v: int)
    ensures |Corpo(v)| > 0 && forall i :: 0 <= i < |Corpo(v)| ==> CharMoeda(Corpo(v)[i])
  {
    MagnitudeChars(v);
    var m, c := Magnitude(v), Corpo(v);
    forall i | 0 <= i < |c|
      ensures CharMoeda(c[i])
    {
      if i >= |Sinal(v)| {
        assert c[i] == m[i - |Sinal(v)|];
      }
    }
  }

  /** Turning the comma of the magnitude into a dot: the reais, '.', the cents. */
  lemma SubstituiMagnitude(v: int)
    ensures SubstituiChar(Magnitude(v), ',', '.') == Reais(v) + "." + Centavos(v)
    ensures DigitosEPontos(Reais(v) + "." + Centavos(v))
  {
    var g, d := Reais(v), Centavos(v);
    var m, u := Magnitude(v), Reais(v) + "." + Centavos(v);
    assert |m| == |u|;
    forall i | 0 <= i < |m|
      ensures SubstituiChar(m, ',', '.')[i] == u[i]
      ensures EhDigito(u[i]) || u[i] == '.'
    {
      if i < |g| {
        assert m[i] == g[i] == u[i];
      } else if i > |g| {
        assert m[i] == d[i - |g| - 1] == u[i];
      }
    }
  }

  /** The sign is the one char the parser drops from a formatted amount. */
  lemma SubstituiCorpo(v: int)
    ensures SoNumerico(SubstituiChar(Corpo(v), ',', '.')) == Reais(v) + "." + Centavos(v)
  {
    SubstituiMagnitude(v);
    var u := Reais(v) + "." + Centavos(v);
    SubstituiCharConcat(Sinal(v), Magnitude(v), ',', '.');
    assert SubstituiChar(Sinal(v), ',', '.') == Sinal(v);
    SoNumericoConcat(Sinal(v), u);
    assert SoNumerico(Sinal(v)) == [];
    SoNumericoMantem(u);
  }

  /** Digits, dots and commas: a number as people type it. */
  predicate Numeral(t: string)
  {
    forall i :: 0 <= i < |t| ==> EhDigito(t[i]) || t[i] == '.' || t[i] == ','
  }

  /** A text that is already just the number: removing "R$" and trimming leave it as it is. */
  lemma LimpaSemCifrao(t: string)
    requires |t| > 0 && Numeral(t)
    ensures !EmBranco(t)
    ensures Limpa(t) == SoNumerico(SubstituiChar(t, ',', '.'))
  {
    assert !EhEspaco(t[0]) && !EhEspaco(t[|t| - 1]);
    assert 'R' !in t;
    RemoveSemOcorrencia(t, "R$");
    TrimDeAcolchoado("", t, "");
    assert "" + t + "" == t;
  }

  /** "R$ " at the head of a text that has no other 'R': deleting "R$" leaves the space and the rest. */
  lemma RemoveCifrao(t: string)
    requires 'R' !in t
    ensures RemoveOcorrencias("R$ " + t, "R$") == " " + t
  {
    var s := "R$ " + t;
    assert s[..2] == "R$" && s[2..] == " " + t;
    assert 'R' !in " " + t by {
      forall i | 0 <= i < |" " + t| ensures (" " + t)[i] != 'R' {
        if i > 0 {
          assert (" " + t)[i] == t[i - 1];
        }
      }
    }
    RemoveSemOcorrencia(" " + t, "R$");
  }

  /** Behind the currency prefix "R$ ", a text made of the chars of an amount is what the parser reads. */
  lemma LimpaComCifrao(t: string)
    requires |t| > 0 && forall i :: 0 <= i < |t| ==> CharMoeda(t[i])
    ensures !EmBranco("R$ " + t)
    ensures Limpa("R$ " + t) == SoNumerico(SubstituiChar(t, ',', '.'))
  {
    assert !EhEspaco(("R$ " + t)[0]);
    assert 'R' !in t by {
      forall i | 0 <= i < |t| ensures t[i] != 'R' {
        assert CharMoeda(t[i]);
      }
    }
    RemoveCifrao(t);
    TrimComEspaco(t);
  }

  lemma TrimComEspaco(t: string)
    requires |t| > 0 && forall i :: 0 <= i < |t| ==> CharMoeda(t[i])
    ensures Trim(" " + t) == t
  {
    assert CharMoeda(t[0]) && CharMoeda(t[|t| - 1]);
    TrimDeAcolchoado(" ", t, "");
    assert " " + t + "" == " " + t;
  }

  /** What the normalisation of parseMoeda makes of a formatted amount: the grouped reais, a dot and the cents. */
  lemma LimpaDeFormatado(v: int)
    ensures !EmBranco(FormatarMoeda(Some(v)))
    ensures Limpa(FormatarMoeda(Some(v))) == Reais(v) + "." + Centavos(v)
  {
    CorpoChars(v);
    LimpaComCifrao(Corpo(v));
    SubstituiCorpo(v);
  }

  /**
   * Below one thousand reais an amount read back from its own formatting
   * is its magnitude in cents at scale 2: the sign is dropped.
   */
  lemma ParseFormatarPequeno(v: int)
    requires Abs(v) < 100000
    ensures ParseMoeda(Some(FormatarMoeda(Some(v)))) == Decimal(Abs(v), 2)
  {
    LimpaDeFormatado(v);
    LerReaisECentavos(v);
  }

  /** Reais of at most three digits, a dot and the cents read as the amount in cents at scale 2. */
  lemma LerReaisECentavos(v: int)
    requires Abs(v) < 100000
    ensures DigitosEPontos(Reais(v) + "." + Centavos(v))
    ensures LerDecimal(Reais(v) + "." + Centavos(v)) == Some(Decimal(Abs(v), 2))
  {
    var q := Abs(v) / 100;
    DigitosCurtos(q, 3);
    var g, d := Digitos(q), Centavos(v);
    assert Reais(v) == g;
    LerComCentavos(g, d);
  }

  /** Digits, a dot and two digits: the value in hundredths, at scale 2. */
  lemma LerComCentavos(g: string, d: string)
    requires SoDigitos(g) && SoDigitos(d) && |d| == 2
    ensures DigitosEPontos(g + "." + d)
    ensures LerDecimal(g + "." + d) == Some(Decimal(ValorDigitos(g) * 100 + ValorDigitos(d), 2))
  {
    LerDecimalNumeral(g, d);
    ValorDigitosConcat(g, d);
    var x, p := ValorDigitos(g), Pot10(|d|);
    assert p == 100 by {
      assert Pot10(1) == 10;
    }
    assert ValorDigitos(g + d) == x * 100 + ValorDigitos(d);
  }

  /**
   * From one thousand reais on the grouping dot makes the cleaned text a
   * number with two dots, which reads as zero.
   */
  lemma ParseFormatarGrande(v: int)
    requires Abs(v) >= 100000
    ensures ParseMoeda(Some(FormatarMoeda(Some(v)))) == ZERO
  {
    LimpaDeFormatado(v);
    var q := Abs(v) / 100;
    DigitosLongos(q, 3);
    var g := Reais(v);
    var u := g + "." + Centavos(v);
    var i := Primeiro(g, '.');
    assert u[i] == '.' && u[|g|] == '.';
    LerDecimalDoisPontos(u, i, |g|);
  }

  /**
   * A thousands dot together with a decimal comma, as in "1.234,56", leaves
   * two dots after the normalisation, and the text reads as zero.
   */
  lemma MilharComVirgula(milhar: string, centena: string, fracao: string)
    requires SoDigitos(milhar) && SoDigitos(centena) && SoDigitos(fracao)
    ensures ParseMoeda(Some(milhar + "." + centena + "," + fracao)) == ZERO
  {
    var t := milhar + "." + centena + "," + fracao;
    var i, j := |milhar|, |milhar| + 1 + |centena|;
    assert t[i] == '.' && t[j] == ',';
    assert Numeral(t) by {
      forall k | 0 <= k < |t| ensures EhDigito(t[k]) || t[k] == '.' || t[k] == ',' {
        if k < i { assert t[k] == milhar[k]; }
        else if i < k < j { assert t[k] == centena[k - i - 1]; }
        else if k > j { assert t[k] == fracao[k - j - 1]; }
      }
    }
    LimpaSemCifrao(t);
    var u := SubstituiChar(t, ',', '.');
    assert DigitosEPontos(u);
    SoNumericoMantem(u);
    LerDecimalDoisPontos(u, i, j);
  }

  /** A decimal comma without grouping reads as the decimal it writes: "12,50" is 1250 at scale 2. */
  lemma VirgulaDecimal(inteira: string, fracao: string)
    requires SoDigitos(inteira) && SoDigitos(fracao) && |inteira| + |fracao| > 0
    ensures ParseMoeda(Some(inteira + "," + fracao)) == Decimal(ValorDigitos(inteira + fracao), |fracao|)
  {
    var t := inteira + "," + fracao;
    var i := |inteira|;
    assert Numeral(t) by {
      forall k | 0 <= k < |t| ensures EhDigito(t[k]) || t[k] == '.' || t[k] == ',' {
        if k < i { assert t[k] == inteira[k]; }
        else if k > i { assert t[k] == fracao[k - i - 1]; }
      }
    }
    LimpaSemCifrao(t);
    var u := SubstituiChar(t, ',', '.');
    assert u == inteira + "." + fracao by {
      SubstituiCharConcat(inteira + ",", fracao, ',', '.');
      SubstituiCharConcat(inteira, ",", ',', '.');
      assert ',' !in inteira && ',' !in fracao;
      SubstituiSemOcorrencia(inteira, ',', '.');
      SubstituiSemOcorrencia(fracao, ',', '.');
      assert SubstituiChar(",", ',', '.') == ".";
    }
    LerDecimalNumeral(inteira, fracao);
    SoNumericoMantem(u);
  }

  /** The magnitude does not depend on the sign. */
  lemma MagnitudeSimetrica(v: int)
    ensures Magnitude(v) == Magnitude(-v)
  {
    assert Abs(v) == Abs(-v);
  }

  /** A negative amount prints as its magnitude with '-' after "R$ ". */
  lemma FormatarNegativo(v: int)
    requires v < 0
    ensures FormatarMoeda(Some(v)) == "R$ -" + FormatarMoeda(Some(-v))[3..]
  {
    MagnitudeSimetrica(v);
    var m := Magnitude(v);
    assert Corpo(-v) == "" + m;
    assert Corpo(v) == "-" + m;
    PrefixoNegativo(m);
  }

  lemma PrefixoNegativo(m: string)
    ensures "R$ " + ("-" + m) == "R$ -" + ("R$ " + ("" + m))[3..]
  {
    assert "" + m == m;
    assert ("R$ " + m)[3..] == m;
  }

  /**
   * parseMoeda with its thousands step done before the decimal comma
   * becomes a dot: the grouping dots are deleted first, so only the
   * decimal point is left.
   */
  function LimpaCorrigida(s: string): (r: string)
    ensures DigitosEPontos(r)
  {
    SoNumerico(SubstituiChar(RemoveOcorrencias(Trim(RemoveOcorrencias(s, "R$")), "."), ',', '.'))
  }

  function ParseMoedaCorrigida(valor: Option<string>): (r: Decimal)
    ensures r.unscaled >= 0
  {
    match valor
    case None => ZERO
    case Some(s) =>
      if EmBranco(s) then ZERO
      else
        match LerDecimal(LimpaCorrigida(s))
        case None => ZERO
        case Some(d) => d
  }

  /** With the dots deleted first, every formatted amount reads back as its magnitude in cents at scale 2. */
  lemma ParseFormatarCorrigido(v: int)
    ensures ParseMoedaCorrigida(Some(FormatarMoeda(Some(v)))) == Decimal(Abs(v), 2)
  {
    FormatadoNaoBranco(v);
    LerCorrigidaDeFormatado(v);
  }

  /** A formatted amount starts with 'R', so it is never blank. */
  lemma FormatadoNaoBranco(v: int)
    ensures !EmBranco(FormatarMoeda(Some(v)))
  {
    var f := FormatarMoeda(Some(v));
    assert f[0] == 'R' && !EhEspaco(f[0]);
  }

  /** The corrected normalisation of a formatted amount reads as its magnitude in cents. */
  lemma LerCorrigidaDeFormatado(v: int)
    ensures LerDecimal(LimpaCorrigida(FormatarMoeda(Some(v)))) == Some(Decimal(Abs(v), 2))
  {
    LimpaCorrigidaDeFormatado(v);
    LerReaisPlanos(v);
  }

  /** The plain reais, a dot and the cents read as the amount in cents at scale 2. */
  lemma LerReaisPlanos(v: int)
    ensures LerDecimal(Digitos(Abs(v) / 100) + "." + Centavos(v)) == Some(Decimal(Abs(v), 2))
  {
    var q := Abs(v) / 100;
    LerComCentavos(Digitos(q), Centavos(v));
    assert q * 100 + Abs(v) % 100 == Abs(v);
  }

  /** The corrected normalisation of a formatted amount: the plain reais, a dot and the cents. */
  lemma LimpaCorrigidaDeFormatado(v: int)
    ensures LimpaCorrigida(FormatarMoeda(Some(v))) == Digitos(Abs(v) / 100) + "." + Centavos(v)
  {
    var d, c := Digitos(Abs(v) / 100), Centavos(v);
    var f := FormatarMoeda(Some(v));
    var t := Trim(RemoveOcorrencias(f, "R$"));
    assert t == Corpo(v) by {
      CorpoChars(v);
      CifraoAparado(Corpo(v));
    }
    var u := RemoveOcorrencias(t, ".");
    assert u == Sinal(v) + (d + "," + c) by {
      CorpoSemPontos(v);
    }
    var w := SubstituiChar(u, ',', '.');
    assert w == Sinal(v) + (d + "." + c) by {
      VirgulaParaPonto(Sinal(v), d, c);
    }
    assert SoNumerico(w) == d + "." + c by {
      LerComCentavos(d, c);
      SoNumericoConcat(Sinal(v), d + "." + c);
      SoNumericoMantem(d + "." + c);
    }
  }

  /** Behind "R$ ", removing "R$" and trimming give back a text made of the chars of an amount. */
  lemma CifraoAparado(t: string)
    requires |t| > 0 && forall i :: 0 <= i < |t| ==> CharMoeda(t[i])
    ensures Trim(RemoveOcorrencias("R$ " + t, "R$")) == t
  {
    assert 'R' !in t by {
      forall i | 0 <= i < |t| ensures t[i] != 'R' {
        assert CharMoeda(t[i]);
      }
    }
    RemoveCifrao(t);
    TrimComEspaco(t);
  }

  /** Deleting the dots of the printed amount leaves the sign, the plain reais, ',' and the cents. */
  lemma CorpoSemPontos(v: int)
    ensures RemoveOcorrencias(Corpo(v), ".") == Sinal(v) + (Digitos(Abs(v) / 100) + "," + Centavos(v))
  {
    var d, g, c := Digitos(Abs(v) / 100), Reais(v), Centavos(v);
    assert Corpo(v) == Sinal(v) + ((g + ",") + c);
    RemovePontoConcat(Sinal(v), (g + ",") + c);
    RemovePontoConcat(g + ",", c);
    RemovePontoConcat(g, ",");
    AgrupaSemPontos(d);
    RemoveSemOcorrencia(Sinal(v), ".");
    RemoveSemOcorrencia(",", ".");
    assert '.' !in c by {
      forall i | 0 <= i < |c| ensures c[i] != '.' {
        assert EhDigito(c[i]);
      }
    }
    RemoveSemOcorrencia(c, ".");
  }

  /** The comma between the reais and the cents is the only one, and it becomes the decimal point. */
  lemma VirgulaParaPonto(sinal: string, d: string, c: string)
    requires sinal == "" || sinal == "-"
    requires SoDigitos(d) && SoDigitos(c)
    ensures SubstituiChar(sinal + (d + "," + c), ',', '.') == sinal + (d + "." + c)
  {
    assert ',' !in d by {
      forall i | 0 <= i < |d| ensures d[i] != ',' {
        assert EhDigito(d[i]);
      }
    }
    assert ',' !in c by {
      forall i | 0 <= i < |c| ensures c[i] != ',' {
        assert EhDigito(c[i]);
      }
    }
    SubstituiCharConcat(sinal, d + "," + c, ',', '.');
    SubstituiCharConcat(d + ",", c, ',', '.');
    SubstituiCharConcat(d, ",", ',', '.');
    SubstituiSemOcorrencia(sinal, ',', '.');
    SubstituiSemOcorrencia(d, ',', '.');
    SubstituiSemOcorrencia(c, ',', '.');
    assert SubstituiChar(",", ',', '.') == ".";
  }
}
