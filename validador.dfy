/**
 * Validador: the ordered entity checks (which throw the first failing
 * check's message) and the text predicates of the registration screens.
 */
module Validador {
  import opened Wrappers
  import opened Textos
  import opened ModeloProduto
  import opened ModeloVenda

  datatype ErroProduto =
    | ProdutoNulo              // "Produto não pode ser nulo"
    | CodigoBarrasObrigatorio  // "Código de barras é obrigatório"
    | NomeObrigatorio          // "Nome do produto é obrigatório"
    | CategoriaObrigatoria     // "Categoria é obrigatória"
    | PrecoCustoInvalido       // "Preço de custo inválido"
    | PrecoVendaInvalido       // "Preço de venda inválido"
    | VendaAbaixoDoCusto       // "Preço de venda não pode ser menor que o preço de custo"
    | EstoqueInvalido          // "Quantidade em estoque inválida"
    | EstoqueMinimoInvalido    // "Estoque mínimo inválido"

  /** validarProduto: the checks run in this order and the first failing one is reported. */
  function ValidarProduto(p: Produto?): Outcome<ErroProduto>
    reads p
  {
    if p == null then Fail(ProdutoNulo)
    else if EmBranco(p.codigoBarras) then Fail(CodigoBarrasObrigatorio)
    else if EmBranco(p.nome) then Fail(NomeObrigatorio)
    else if p.categoria.None? then Fail(CategoriaObrigatoria)
    else if p.precoCusto < 0 then Fail(PrecoCustoInvalido)
    else if p.precoVenda <= 0 then Fail(PrecoVendaInvalido)
    else if p.precoVenda < p.precoCusto then Fail(VendaAbaixoDoCusto)
    else if p.quantidadeEstoque < 0 then Fail(EstoqueInvalido)
    else if p.estoqueMinimo < 0 then Fail(EstoqueMinimoInvalido)
    else Pass
  }

  /** The order of the checks on a non-null product. */
  const OrdemProduto: seq<ErroProduto> := [CodigoBarrasObrigatorio, NomeObrigatorio, CategoriaObrigatoria,
    PrecoCustoInvalido, PrecoVendaInvalido, VendaAbaixoDoCusto, EstoqueInvalido, EstoqueMinimoInvalido]

  /** Whether a product satisfies the requirement whose violation is reported as e. */
  predicate Atende(p: Produto, e: ErroProduto)
    reads p
  {
    match e
    case ProdutoNulo => true
    case CodigoBarrasObrigatorio => !EmBranco(p.codigoBarras)
    case NomeObrigatorio => !EmBranco(p.nome)
    case CategoriaObrigatoria => p.categoria.Some?
    case PrecoCustoInvalido => p.precoCusto >= 0
    case PrecoVendaInvalido => p.precoVenda > 0
    case VendaAbaixoDoCusto => p.precoVenda >= p.precoCusto
    case EstoqueInvalido => p.quantidadeEstoque >= 0
    case EstoqueMinimoInvalido => p.estoqueMinimo >= 0
  }

  /**
   * A product passes exactly when it meets every requirement; otherwise the
   * error reported is that of the first requirement in the order that it
   * misses, all the earlier ones being met.
   */
  lemma ValidarProdutoPrimeiraFalha(p: Produto)
    ensures ValidarProduto(p) == Pass <==> forall i :: 0 <= i < |OrdemProduto| ==> Atende(p, OrdemProduto[i])
    ensures ValidarProduto(p).Fail? ==> exists i :: (0 <= i < |OrdemProduto| && ValidarProduto(p).error == OrdemProduto[i]
      && !Atende(p, OrdemProduto[i]) && forall j :: 0 <= j < i ==> Atende(p, OrdemProduto[j]))
  {
    var r := ValidarProduto(p);
    if r.Fail? {
      var i :| 0 <= i < |OrdemProduto| && r.error == OrdemProduto[i] by {
        assert r.error in OrdemProduto;
      }
      assert forall j :: 0 <= j < i ==> Atende(p, OrdemProduto[j]);
    }
  }

  /**
   * Sale price >= cost is only reported once both prices passed their own
   * checks: a negative cost is reported as such, even with a lower sale price.
   */
  lemma VendaAbaixoDoCustoSoComPrecosValidos(p: Produto)
    ensures ValidarProduto(p) == Fail(VendaAbaixoDoCusto) ==> 0 <= p.precoCusto && 0 < p.precoVenda < p.precoCusto
    ensures !EmBranco(p.codigoBarras) && !EmBranco(p.nome) && p.categoria.Some? && p.precoCusto < 0
      ==> ValidarProduto(p) == Fail(PrecoCustoInvalido)
  {
  }

  datatype ErroVenda =
    | VendaNula          // "Venda não pode ser nula"
    | UsuarioObrigatorio // "Usuário é obrigatório"
    | VendaSemItens      // "Venda deve ter pelo menos um item"
    | TotalInvalido      // "Total da venda inválido"

  /** validarVenda, in its check order; the total is the stored one. */
  function ValidarVenda(v: Venda?): Outcome<ErroVenda>
    reads v
  {
    if v == null then Fail(VendaNula)
    else if v.usuario.None? then Fail(UsuarioObrigatorio)
    else if v.itens == [] then Fail(VendaSemItens)
    else if v.total <= 0 then Fail(TotalInvalido)
    else Pass
  }

  /** A sale passes exactly when it has a user, at least one line and a positive stored total. */
  lemma ValidarVendaAceita(v: Venda)
    ensures ValidarVenda(v) == Pass <==> v.usuario.Some? && |v.itens| >= 1 && v.total > 0
  {
  }

  /** isCodigoBarrasValido: 8 to 13 chars, all ASCII digits, once trimmed; no check digit. */
  predicate IsCodigoBarrasValido(codigo: string)
  {
    !EmBranco(codigo) && 8 <= |Trim(codigo)| <= 13 && SoDigitos(Trim(codigo))
  }

  /** s[i..j] is a run of 8 to 13 digits and everything around it is blank. */
  predicate DigitosAcolchoados(s: string, i: int, j: int)
  {
    0 <= i <= j <= |s| && EmBranco(s[..i]) && EmBranco(s[j..]) && 8 <= j - i <= 13 && SoDigitos(s[i..j])
  }

  /**
   * A barcode is accepted exactly when it is a run of 8 to 13 digits with
   * blank padding on either side.
   */
  lemma CodigoBarrasAcolchoado(s: string)
    ensures IsCodigoBarrasValido(s) <==> exists i, j :: DigitosAcolchoados(s, i, j)
  {
    if IsCodigoBarrasValido(s) {
      var i, j := ValidoAcolchoado(s);
    } else if exists i, j :: DigitosAcolchoados(s, i, j) {
      var i, j :| DigitosAcolchoados(s, i, j);
      AcolchoadoValido(s, i, j);
    }
  }

  lemma ValidoAcolchoado(s: string) returns (i: int, j: int)
    requires IsCodigoBarrasValido(s)
    ensures DigitosAcolchoados(s, i, j)
  {
    i, j :| 0 <= i <= j <= |s| && Trim(s) == s[i..j] && EmBranco(s[..i]) && EmBranco(s[j..]);
  }

  lemma AcolchoadoValido(s: string, i: int, j: int)
    requires DigitosAcolchoados(s, i, j)
    ensures IsCodigoBarrasValido(s)
  {
    var t := s[i..j];
    assert s == s[..i] + t + s[j..];
    assert EhDigito(t[0]) && EhDigito(t[|t| - 1]);
    TrimDeAcolchoado(s[..i], t, s[j..]);
    TrimVazioSseEmBranco(s);
  }

  /** A char of the local part of an e-mail: [A-Za-z0-9+_.-]. */
  predicate CharLocal(c: char)
  {
    ('A' <= c <= 'Z') || ('a' <= c <= 'z') || EhDigito(c) || c == '+' || c == '_' || c == '.' || c == '-'
  }

  /** The chars the regex '.' does not match: the line terminators. */
  predicate TerminadorLinha(c: char)
  {
    c == '\n' || c == '\r' || c == '\U{85}' || c == '\U{2028}' || c == '\U{2029}'
  }

  /**
   * isEmailValido: not blank, and the whole string matches
   * ^[A-Za-z0-9+_.-]+@(.+)$. The local part cannot hold an '@', so the
   * match splits at the first '@'.
   */
  predicate IsEmailValido(email: string)
  {
    && !EmBranco(email)
    && '@' in email
    && var i := Primeiro(email, '@');
      && 0 < i < |email| - 1
      && (forall k :: 0 <= k < i ==> CharLocal(email[k]))
      && (forall k :: i < k < |email| ==> !TerminadorLinha(email[k]))
  }

  /**
   * An e-mail is accepted exactly when it splits as local + "@" + domain
   * with a non-empty local part over [A-Za-z0-9+_.-] and a non-empty domain
   * without line terminators.
   */
  lemma EmailFormato(s: string)
    ensures IsEmailValido(s) <==> exists i :: (0 < i < |s| - 1 && s[i] == '@'
      && (forall k :: 0 <= k < i ==> CharLocal(s[k])) && (forall k :: i < k < |s| ==> !TerminadorLinha(s[k])))
  {
    if exists i :: (0 < i < |s| - 1 && s[i] == '@' && (forall k :: 0 <= k < i ==> CharLocal(s[k]))
      && (forall k :: i < k < |s| ==> !TerminadorLinha(s[k]))) {
      var i :| 0 < i < |s| - 1 && s[i] == '@' && (forall k :: 0 <= k < i ==> CharLocal(s[k]))
        && (forall k :: i < k < |s| ==> !TerminadorLinha(s[k]));
      assert '@' in s;
      var p := Primeiro(s, '@');
      assert !EhEspaco(s[i]);
    }
  }

  /** A char of a username: [a-zA-Z0-9_]. */
  predicate CharUsuario(c: char)
  {
    ('A' <= c <= 'Z') || ('a' <= c <= 'z') || EhDigito(c) || c == '_'
  }

  /** isUsernameValido: not blank, and 3 to 50 chars of [a-zA-Z0-9_], untrimmed. */
  predicate IsUsernameValido(username: string)
  {
    !EmBranco(username) && 3 <= |username| <= 50 && forall k :: 0 <= k < |username| ==> CharUsuario(username[k])
  }

  /**
   * The blank check is implied by the pattern, and padding is not trimmed
   * away: " abc" is rejected.
   */
  lemma UsernameSoPadrao(s: string)
    ensures IsUsernameValido(s) <==> 3 <= |s| <= 50 && forall k :: 0 <= k < |s| ==> CharUsuario(s[k])
    ensures !IsUsernameValido(" abc")
  {
    if 3 <= |s| <= 50 && forall k :: 0 <= k < |s| ==> CharUsuario(s[k]) {
      assert !EhEspaco(s[0]);
    }
    assert !CharUsuario(" abc"[0]);
  }

  /**
   * isSenhaValida: present and at least 6 long, where the length is
   * String.length(), in UTF-16 code units; any chars count, blanks included.
   */
  predicate IsSenhaValida(senha: Option<string>)
  {
    senha.Some? && ComprimentoUtf16(senha.value) >= 6
  }

  /**
   * The length rule for every password: six chars always suffice, fewer
   * than three never do, and for a text without chars above U+FFFF the
   * rule is exactly six chars or more; a missing password is refused.
   */
  lemma SenhaPorCaracteres(s: string)
    ensures |s| >= 6 ==> IsSenhaValida(Some(s))
    ensures |s| < 3 ==> !IsSenhaValida(Some(s))
    ensures (forall i :: 0 <= i < |s| ==> s[i] as int < 0x1_0000) ==> (IsSenhaValida(Some(s)) <==> |s| >= 6)
    ensures !IsSenhaValida(None)
  {
  }

  /**
   * Appending to a valid password keeps it valid; three chars above U+FFFF
   * are six code units, so they make a valid password, while five blanks
   * do not and six blanks do.
   */
  lemma SenhaSoComprimento(s: string, t: string)
    requires IsSenhaValida(Some(s))
    ensures IsSenhaValida(Some(s + t))
    ensures IsSenhaValida(Some("\U{1F600}\U{1F600}\U{1F600}"))
    ensures IsSenhaValida(Some("      ")) && !IsSenhaValida(Some("     "))
  {
    ComprimentoUtf16Concat(s, t);
    var e := "\U{1F600}\U{1F600}\U{1F600}";
    assert forall i :: 0 <= i < |e| ==> e[i] as int >= 0x1_0000;
  }
}
