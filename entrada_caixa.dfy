/**
 * The checkout screen's scanner input (MainController.handleAdicionarProduto):
 * the barcode field may carry a multiplier, as in "2*7891000315507"; the
 * quantity comes from the multiplier, from the quantity field, or is 1.
 * The parse is a pure function from the two fields to the item request or
 * the warning the screen shows instead of calling the sale service.
 */
module EntradaCaixa {
  import opened Wrappers
  import opened Textos

  /** What adicionarItem is called with. */
  datatype Pedido = Pedido(codigo: string, quantidade: int)

  datatype ErroEntrada =
    | CodigoVazio            // "Digite o código de barras do produto"
    | FormatoInvalido        // "Use o formato QUANTIDADE*CODIGO"
    | QuantidadeInvalida     // NumberFormatException: "Quantidade inválida no formato de entrada"
    | QuantidadeNaoPositiva  // "Quantidade deve ser maior que zero"

  /** The range of a Java int. */
  const MIN_INT := -0x8000_0000
  const MAX_INT := 0x7fff_ffff

  // ---------------------------------------------------------------------
  // String.split on a single char

  /** Every piece between occurrences of c, empty ones included: one more piece than occurrences. */
  function Partes(s: string, c: char): (r: seq<string>)
    ensures |r| >= 1
    decreases |s|
  {
    if s == [] then [[]]
    else
      var resto := Partes(s[1..], c);
      if s[0] == c then [[]] + resto
      else [[s[0]] + resto[0]] + resto[1..]
  }

  /** No piece holds the separator. */
  lemma {:induction false} PartesSemSeparador(s: string, c: char)
    ensures forall i :: 0 <= i < |Partes(s, c)| ==> c !in Partes(s, c)[i]
    decreases |s|
  {
    if s != [] {
      PartesSemSeparador(s[1..], c);
      var resto := Partes(s[1..], c);
      var r := Partes(s, c);
      if s[0] != c {
        assert forall i :: 1 <= i < |r| ==> r[i] == resto[i];
      }
    }
  }

  /** The pieces put back together with c between them. */
  function Junta(ps: seq<string>, c: char): string
    requires |ps| >= 1
  {
    if |ps| == 1 then ps[0] else ps[0] + [c] + Junta(ps[1..], c)
  }

  /** Splitting and joining again gives the text back. */
  lemma {:induction false} JuntaPartes(s: string, c: char)
    ensures Junta(Partes(s, c), c) == s
    decreases |s|
  {
    if s != [] {
      var resto := Partes(s[1..], c);
      JuntaPartes(s[1..], c);
      if s[0] != c {
        var r := Partes(s, c);
        if |resto| == 1 {
          assert r == [[s[0]] + resto[0]];
        } else {
          assert r[1..] == resto[1..];
          assert Junta(r, c) == [s[0]] + resto[0] + [c] + Junta(resto[1..], c);
        }
      }
    }
  }

  /** A text without c is one piece. */
  lemma {:induction false} PartesSem(b: string, c: char)
    requires c !in b
    ensures Partes(b, c) == [b]
    decreases |b|
  {
    if b != [] {
      PartesSem(b[1..], c);
      assert [b[0]] + b[1..] == b;
    }
  }

  /** A first piece without c, then c: that piece comes first, then the pieces of the rest. */
  lemma {:induction false} PartesConcat(a: string, b: string, c: char)
    requires c !in a
    ensures Partes(a + [c] + b, c) == [a] + Partes(b, c)
    decreases |a|
  {
    var s := a + [c] + b;
    if a == [] {
      assert s[1..] == b;
    } else {
      assert s[0] == a[0];
      assert s[1..] == a[1..] + [c] + b;
      PartesConcat(a[1..], b, c);
      assert [a[0]] + a[1..] == a;
    }
  }

  /** Splitting a join of pieces without c gives the pieces back. */
  lemma {:induction false} PartesJunta(ps: seq<string>, c: char)
    requires |ps| >= 1 && forall i :: 0 <= i < |ps| ==> c !in ps[i]
    ensures Partes(Junta(ps, c), c) == ps
    decreases |ps|
  {
    if |ps| == 1 {
      PartesSem(ps[0], c);
    } else {
      PartesJunta(ps[1..], c);
      PartesConcat(ps[0], Junta(ps[1..], c), c);
      assert [ps[0]] + ps[1..] == ps;
    }
  }

  /** The trailing empty strings dropped, as split with limit 0 does. */
  function SemVaziasFinais(ps: seq<string>): (r: seq<string>)
    ensures |r| <= |ps| && r == ps[..|r|]
    ensures r == [] || r[|r| - 1] != []
    ensures forall i :: |r| <= i < |ps| ==> ps[i] == []
  {
    if ps == [] then []
    else if ps[|ps| - 1] == [] then
      var r := SemVaziasFinais(ps[..|ps| - 1]);
      assert forall i :: |r| <= i < |ps| - 1 ==> ps[i] == ps[..|ps| - 1][i];
      r
    else ps
  }

  /**
   * String.split(regex) for the one-char pattern "\\*": the text itself
   * when the char does not occur, otherwise its pieces with the trailing
   * empty ones dropped (a leading empty piece stays).
   */
  function Split(s: string, c: char): seq<string>
  {
    if c !in s then [s] else SemVaziasFinais(Partes(s, c))
  }

  // ---------------------------------------------------------------------
  // Integer.parseInt and Integer.toString

  /**
   * Integer.parseInt(s): an optional '-' or '+', then at least one digit,
   * with a value inside the int range; anything else is a
   * NumberFormatException.
   */
  function ParseInt(s: string): (r: Option<int>)
    ensures r.Some? ==> MIN_INT <= r.value <= MAX_INT
  {
    if s == [] then None
    else
      var corpo := if s[0] == '-' || s[0] == '+' then s[1..] else s;
      if corpo == [] || !SoDigitos(corpo) then None
      else
        var n: int := ValorDigitos(corpo);
        var v := if s[0] == '-' then -n else n;
        if MIN_INT <= v <= MAX_INT then Some(v) else None
  }

  /** Integer.toString(v): '-' for a negative value, then the shortest numeral of the magnitude. */
  function ToString(v: int): (s: string)
    ensures |s| > 0 && '*' !in s
    ensures !EhEspaco(s[0]) && !EhEspaco(s[|s| - 1])
  {
    var d := Digitos(if v < 0 then -v else v);
    assert EhDigito(d[0]) && EhDigito(d[|d| - 1]);
    var s := if v < 0 then "-" + d else d;
    assert s[|s| - 1] == d[|d| - 1];
    assert forall i :: 0 <= i < |s| ==> s[i] == '-' || EhDigito(s[i]);
    s
  }

  /** parseInt reads back every int that toString prints. */
  lemma ParseIntToString(v: int)
    requires MIN_INT <= v <= MAX_INT
    ensures ParseInt(ToString(v)) == Some(v)
  {
    var d := Digitos(if v < 0 then -v else v);
    assert EhDigito(d[0]);
    if v < 0 {
      assert ("-" + d)[1..] == d;
    }
  }

  /** A numeral past the int range is refused, not wrapped around. */
  lemma ParseIntEstouro(n: nat)
    requires n > MAX_INT
    ensures ParseInt(Digitos(n)) == None
  {
    assert EhDigito(Digitos(n)[0]);
  }

  /** An empty text or a lone sign is not a number. */
  lemma ParseIntSemDigitos()
    ensures ParseInt("") == None && ParseInt("-") == None && ParseInt("+") == None
  {
    assert "-"[1..] == [];
    assert "+"[1..] == [];
  }

  // ---------------------------------------------------------------------
  // handleAdicionarProduto's parse

  /**
   * Both fields trimmed; an empty barcode field is refused. With a '*' the
   * field must split into exactly two pieces, the trimmed left one being the
   * quantity and the trimmed right one the barcode; without one, the field
   * is the barcode and the quantity field (or "1" when empty) the quantity.
   * A quantity that is not an int is refused, and so is one below 1.
   */
  function LerEntrada(campoCodigo: string, campoQuantidade: string): (r: Result<Pedido, ErroEntrada>)
    ensures r.Ok? ==> 0 < r.value.quantidade <= MAX_INT
  {
    var entrada := Trim(campoCodigo);
    if entrada == [] then Err(CodigoVazio)
    else if '*' in entrada then
      var partes := Split(entrada, '*');
      if |partes| != 2 then Err(FormatoInvalido)
      else Pedir(Trim(partes[1]), ParseInt(Trim(partes[0])))
    else
      var qtdStr := Trim(campoQuantidade);
      Pedir(entrada, ParseInt(if qtdStr == [] then "1" else qtdStr))
  }

  /** The end of the parse: the quantity must be an int, and then at least 1. */
  function Pedir(codigo: string, quantidade: Option<int>): (r: Result<Pedido, ErroEntrada>)
    ensures r.Ok? <==> quantidade.Some? && quantidade.value > 0
    ensures r.Ok? ==> r.value == Pedido(codigo, quantidade.value)
  {
    if quantidade.None? then Err(QuantidadeInvalida)
    else if quantidade.value <= 0 then Err(QuantidadeNaoPositiva)
    else Ok(Pedido(codigo, quantidade.value))
  }

  /** A text that neither starts nor ends blank is its own trim. */
  lemma TrimFirme(x: string)
    requires x == [] || (!EhEspaco(x[0]) && !EhEspaco(x[|x| - 1]))
    ensures Trim(x) == x
  {
    TrimDeAcolchoado("", x, "");
    assert "" + x + "" == x;
  }

  /** A trimmed field with a '*': the split decides. */
  lemma ComEstrela(s: string, campoQuantidade: string, partes: seq<string>)
    requires s != [] && Trim(s) == s && '*' in s && Split(s, '*') == partes
    ensures LerEntrada(s, campoQuantidade) ==
      if |partes| != 2 then Err(FormatoInvalido) else Pedir(Trim(partes[1]), ParseInt(Trim(partes[0])))
  {
  }

  /** The empty-field warning appears exactly when the barcode field is blank. */
  lemma EntradaVazia(campoCodigo: string, campoQuantidade: string)
    ensures LerEntrada(campoCodigo, campoQuantidade) == Err(CodigoVazio) <==> EmBranco(campoCodigo)
  {
    TrimVazioSseEmBranco(campoCodigo);
  }

  /** x*t splits into x and t when neither holds a '*' and t is not empty. */
  lemma SplitDuasPartes(x: string, t: string)
    requires '*' !in x && '*' !in t && t != []
    ensures Split(x + "*" + t, '*') == [x, t]
  {
    var s := x + "*" + t;
    assert s[|x|] == '*';
    PartesConcat(x, t, '*');
    PartesSem(t, '*');
  }

  /**
   * "Q*CODE" with Q printed by toString: the code with quantity Q when Q is
   * positive, the non-positive warning otherwise, whatever the quantity field says.
   */
  lemma Multiplicador(v: int, t: string, campoQuantidade: string)
    requires MIN_INT <= v <= MAX_INT
    requires t != [] && '*' !in t && !EhEspaco(t[0]) && !EhEspaco(t[|t| - 1])
    ensures LerEntrada(ToString(v) + "*" + t, campoQuantidade) ==
      if v > 0 then Ok(Pedido(t, v)) else Err(QuantidadeNaoPositiva)
  {
    var x := ToString(v);
    assert LerEntrada(x + "*" + t, campoQuantidade) == Pedir(Trim(t), ParseInt(Trim(x))) by {
      FirmeEstrela(x, t);
      SplitDuasPartes(x, t);
      ComEstrela(x + "*" + t, campoQuantidade, [x, t]);
    }
    assert Trim(t) == t by {
      TrimFirme(t);
    }
    assert ParseInt(Trim(x)) == Some(v) by {
      TrimFirme(x);
      ParseIntToString(v);
    }
  }

  /** x*t with x starting and t ending in a non-blank char is its own trim. */
  lemma FirmeEstrela(x: string, t: string)
    requires t != [] && !EhEspaco(t[|t| - 1])
    requires x == [] || !EhEspaco(x[0])
    ensures x + "*" + t != [] && '*' in x + "*" + t
    ensures Trim(x + "*" + t) == x + "*" + t
  {
    var s := x + "*" + t;
    assert s[|s| - 1] == t[|t| - 1] && s[|x|] == '*';
    if x != [] {
      assert s[0] == x[0];
    }
    TrimFirme(s);
  }

  /** "*CODE": the empty quantity text is not a number. */
  lemma EstrelaInicial(t: string, campoQuantidade: string)
    requires t != [] && '*' !in t && !EhEspaco(t[|t| - 1])
    ensures LerEntrada("*" + t, campoQuantidade) == Err(QuantidadeInvalida)
  {
    var s := "*" + t;
    assert LerEntrada(s, campoQuantidade) == Pedir(Trim(t), ParseInt(Trim([]))) by {
      SplitEstrelaInicial(t);
      assert s[0] == '*' && s[|s| - 1] == t[|t| - 1];
      TrimFirme(s);
      ComEstrela(s, campoQuantidade, [[], t]);
    }
    assert ParseInt(Trim([])) == None by {
      TrimFirme([]);
    }
  }

  lemma SplitEstrelaInicial(t: string)
    requires t != [] && '*' !in t
    ensures Split("*" + t, '*') == [[], t]
  {
    var s := "*" + t;
    assert s[1..] == t;
    PartesSem(t, '*');
  }

  /** k stars. */
  function Estrelas(k: nat): (s: string)
    ensures |s| == k && forall i :: 0 <= i < k ==> s[i] == '*'
  {
    if k == 0 then [] else "*" + Estrelas(k - 1)
  }

  lemma {:induction false} PartesEstrelas(k: nat)
    ensures Partes(Estrelas(k), '*') == seq(k + 1, _ => [])
  {
    if k > 0 {
      PartesEstrelas(k - 1);
      assert Estrelas(k) == [] + ['*'] + Estrelas(k - 1);
      PartesConcat([], Estrelas(k - 1), '*');
    }
  }

  lemma {:induction false} SemVaziasDepois(p: string, k: nat)
    requires p != []
    ensures SemVaziasFinais([p] + seq(k, _ => [])) == [p]
  {
    if k > 0 {
      var ps := [p] + seq(k, _ => []);
      assert ps[|ps| - 1] == [];
      assert ps[..|ps| - 1] == [p] + seq(k - 1, _ => []);
      SemVaziasDepois(p, k - 1);
    }
  }

  /**
   * "3*", "3**": the trailing empty pieces are dropped, one piece is left,
   * and the format warning is shown.
   */
  lemma SemCodigo(a: string, k: nat, campoQuantidade: string)
    requires a != [] && '*' !in a && !EhEspaco(a[0]) && k >= 1
    ensures LerEntrada(a + Estrelas(k), campoQuantidade) == Err(FormatoInvalido)
  {
    var s := a + Estrelas(k);
    assert s != [] && Trim(s) == s && '*' in s by {
      assert s[0] == a[0] && s[|s| - 1] == '*' && s[|a|] == '*';
      TrimFirme(s);
    }
    SplitSemCodigo(a, k);
    ComEstrela(s, campoQuantidade, [a]);
  }

  lemma SplitSemCodigo(a: string, k: nat)
    requires a != [] && '*' !in a && k >= 1
    ensures Split(a + Estrelas(k), '*') == [a]
  {
    var e := Estrelas(k - 1);
    var s := a + Estrelas(k);
    assert s == a + "*" + e;
    assert s[|a|] == '*';
    PartesConcat(a, e, '*');
    PartesEstrelas(k - 1);
    SemVaziasDepois(a, k);
  }

  /** The two examples of the format warning. */
  lemma SemCodigoExemplos(campoQuantidade: string)
    ensures LerEntrada("3*", campoQuantidade) == Err(FormatoInvalido)
    ensures LerEntrada("3**", campoQuantidade) == Err(FormatoInvalido)
  {
    assert "3" + Estrelas(1) == "3*";
    assert "3" + Estrelas(2) == "3**";
    SemCodigo("3", 1, campoQuantidade);
    SemCodigo("3", 2, campoQuantidade);
  }

  /** "A*B*C" with three non-empty pieces: the format warning. */
  lemma TresPartes(a: string, b: string, d: string, campoQuantidade: string)
    requires '*' !in a && '*' !in b && '*' !in d
    requires a != [] && d != [] && !EhEspaco(a[0]) && !EhEspaco(d[|d| - 1])
    ensures LerEntrada(a + "*" + b + "*" + d, campoQuantidade) == Err(FormatoInvalido)
  {
    var s := a + "*" + b + "*" + d;
    assert s != [] && Trim(s) == s && '*' in s by {
      FirmeEstrela(a + "*" + b, d);
    }
    SplitTresPartes(a, b, d);
    ComEstrela(s, campoQuantidade, [a, b, d]);
  }

  lemma SplitTresPartes(a: string, b: string, d: string)
    requires '*' !in a && '*' !in b && '*' !in d && d != []
    ensures Split(a + "*" + b + "*" + d, '*') == [a, b, d]
  {
    var s := a + "*" + b + "*" + d;
    assert s[|a|] == '*';
    assert s == a + "*" + (b + "*" + d);
    PartesConcat(a, b + "*" + d, '*');
    PartesConcat(b, d, '*');
    PartesSem(d, '*');
  }

  /**
   * "Q* *": a blank piece before a trailing star survives the split and
   * trims to an empty barcode, which is passed on to the sale service.
   */
  lemma CodigoEmBrancoAceito(x: string, q: int, w: string, campoQuantidade: string)
    requires x != [] && '*' !in x && !EhEspaco(x[0]) && !EhEspaco(x[|x| - 1])
    requires ParseInt(x) == Some(q) && q > 0
    requires w != [] && Trim(w) == []
    ensures LerEntrada(x + "*" + w + "*", campoQuantidade) == Ok(Pedido([], q))
  {
    BrancoEntreEstrelas(x, w, campoQuantidade);
    TrimFirme(x);
  }

  /** x*w* with x firm and w blank: the split gives x and w. */
  lemma BrancoEntreEstrelas(x: string, w: string, campoQuantidade: string)
    requires x != [] && '*' !in x && !EhEspaco(x[0])
    requires w != [] && Trim(w) == []
    ensures LerEntrada(x + "*" + w + "*", campoQuantidade) == Pedir(Trim(w), ParseInt(Trim(x)))
  {
    var s := x + "*" + w + "*";
    assert s != [] && Trim(s) == s && '*' in s by {
      assert s[0] == x[0] && s[|s| - 1] == '*' && s[|x|] == '*';
      TrimFirme(s);
    }
    assert Split(s, '*') == [x, w] by {
      TrimVazioSseEmBranco(w);
      SplitBrancoFinal(x, w);
    }
    ComEstrela(s, campoQuantidade, [x, w]);
  }

  /** x*w* splits into x and w: the empty piece after the last star is dropped. */
  lemma SplitBrancoFinal(x: string, w: string)
    requires '*' !in x && w != [] && EmBranco(w)
    ensures Split(x + "*" + w + "*", '*') == [x, w]
  {
    var s := x + "*" + w + "*";
    assert s[|x|] == '*';
    assert '*' !in w by {
      assert forall i :: 0 <= i < |w| ==> EhEspaco(w[i]);
    }
    assert s == x + "*" + (w + "*" + []);
    PartesConcat(x, w + "*" + [], '*');
    PartesConcat(w, [], '*');
    assert Partes([], '*') == [[]];
    var ps := Partes(s, '*');
    assert ps == [x, w, []];
    assert SemVaziasFinais(ps) == SemVaziasFinais([x, w]);
  }

  /** Without a '*' and with an empty quantity field the quantity is 1. */
  lemma QuantidadePadrao(campoCodigo: string, campoQuantidade: string)
    requires !EmBranco(campoCodigo) && '*' !in Trim(campoCodigo) && EmBranco(campoQuantidade)
    ensures LerEntrada(campoCodigo, campoQuantidade) == Ok(Pedido(Trim(campoCodigo), 1))
  {
    TrimVazioSseEmBranco(campoCodigo);
    TrimVazioSseEmBranco(campoQuantidade);
    ParseIntToString(1);
    assert ToString(1) == "1";
  }

  /** Without a '*' the quantity field is read as an int. */
  lemma QuantidadeDoCampo(campoCodigo: string, v: int)
    requires !EmBranco(campoCodigo) && '*' !in Trim(campoCodigo) && MIN_INT <= v <= MAX_INT
    ensures LerEntrada(campoCodigo, ToString(v)) ==
      if v > 0 then Ok(Pedido(Trim(campoCodigo), v)) else Err(QuantidadeNaoPositiva)
  {
    TrimVazioSseEmBranco(campoCodigo);
    TrimFirme(ToString(v));
    ParseIntToString(v);
  }
}
