/** Produto: a catalogue entry that carries its own stock level and stock rules. */
module ModeloProduto {
  import opened Wrappers
  import opened Decimais
  import opened Cadastros

  datatype ErroEstoque =
    | QuantidadeNegativa     // "Quantidade não pode ser negativa"
    | EstoqueInsuficiente    // "Estoque insuficiente"

  /** adicionarEstoque on the stock level alone. */
  function Adicionar(estoque: int, quantidade: int): Result<int, ErroEstoque>
  {
    if quantidade < 0 then Err(QuantidadeNegativa) else Ok(estoque + quantidade)
  }

  /** removerEstoque on the stock level alone. */
  function Remover(estoque: int, quantidade: int): Result<int, ErroEstoque>
  {
    if quantidade < 0 then Err(QuantidadeNegativa)
    else if estoque < quantidade then Err(EstoqueInsuficiente)
    else Ok(estoque - quantidade)
  }

  /** Removing stock succeeds exactly when the quantity is in [0, stock], and then never leaves it negative. */
  lemma RemoverNaoNegativo(estoque: int, quantidade: int)
    ensures Remover(estoque, quantidade).Ok? <==> 0 <= quantidade <= estoque
    ensures Remover(estoque, quantidade).Ok? ==> Remover(estoque, quantidade).value >= 0
  {
  }

  /** Adding q and then removing q gives the original stock back. */
  lemma AdicionarRemoverInversos(estoque: int, quantidade: int)
    requires estoque >= 0 && Adicionar(estoque, quantidade).Ok?
    ensures Remover(Adicionar(estoque, quantidade).value, quantidade) == Ok(estoque)
  {
  }

  class Produto {
    var id: Option<int>
    var codigoBarras: string
    var nome: string
    var categoria: Option<Categoria>
    var precoCusto: int
    var precoVenda: int
    var quantidadeEstoque: int
    var estoqueMinimo: int
    var unidadeMedida: string
    var ativo: bool

    /** A new, unsaved product with the field defaults of the entity. */
    constructor (codigoBarras: string, nome: string, categoria: Option<Categoria>, precoCusto: int, precoVenda: int)
      ensures this.id == None
      ensures this.codigoBarras == codigoBarras && this.nome == nome && this.categoria == categoria
      ensures this.precoCusto == precoCusto && this.precoVenda == precoVenda
      ensures quantidadeEstoque == 0 && estoqueMinimo == 0 && unidadeMedida == "UN" && ativo
    {
      this.id := None;
      this.codigoBarras := codigoBarras;
      this.nome := nome;
      this.categoria := categoria;
      this.precoCusto := precoCusto;
      this.precoVenda := precoVenda;
      quantidadeEstoque := 0;
      estoqueMinimo := 0;
      unidadeMedida := "UN";
      ativo := true;
    }

    /** isEstoqueBaixo: the stock has reached the minimum. */
    predicate IsEstoqueBaixo()
      reads this
    {
      quantidadeEstoque <= estoqueMinimo
    }

    /**
     * getMargemLucro, in hundredths of a percent: (venda - custo) / custo is
     * rounded half-up to 4 decimals first and only then multiplied by 100.
     * For a positive cost the result is within half a unit of the exact
     * ratio, a tie going away from zero; a zero cost gives 0.
     */
    function MargemLucro(): (r: int)
      reads this
      ensures precoCusto == 0 ==> r == 0
      ensures precoCusto > 0 && precoVenda >= precoCusto ==>
        (2 * r - 1) * precoCusto <= 2 * ((precoVenda - precoCusto) * 10000) < (2 * r + 1) * precoCusto
      ensures precoCusto > 0 && precoVenda < precoCusto ==>
        (2 * r - 1) * precoCusto < 2 * ((precoVenda - precoCusto) * 10000) <= (2 * r + 1) * precoCusto
      ensures precoCusto < 0 ==>
        Abs(r) == MeioAcima(Abs((precoVenda - precoCusto) * 10000), -precoCusto)
        && (precoVenda < precoCusto ==> r >= 0) && (precoVenda >= precoCusto ==> r <= 0)
    {
      if precoCusto == 0 then 0
      else
        var n := (precoVenda - precoCusto) * 10000;
        var c := precoCusto;
        var r := ArredondaMeioAcima(n, c);
        if c > 0 && n < 0 then
          var q: int := MeioAcima(Abs(n), c);
          assert r == -q;
          assert (2 * q - 1) * c <= -2 * n < (2 * q + 1) * c;
          assert (2 * r - 1) * c == -((2 * q + 1) * c);
          assert (2 * r + 1) * c == -((2 * q - 1) * c);
          r
        else r
    }

    /** Every field except the stock level is as it was. */
    twostate predicate SoEstoqueMudou()
      reads this
    {
      && old(id) == id && old(codigoBarras) == codigoBarras && old(nome) == nome
      && old(categoria) == categoria && old(precoCusto) == precoCusto && old(precoVenda) == precoVenda
      && old(estoqueMinimo) == estoqueMinimo && old(unidadeMedida) == unidadeMedida && old(ativo) == ativo
    }

    method AdicionarEstoque(quantidade: int) returns (r: Outcome<ErroEstoque>)
      modifies this`quantidadeEstoque
      ensures r == (if quantidade < 0 then Fail(QuantidadeNegativa) else Pass)
      ensures quantidadeEstoque == (match Adicionar(old(quantidadeEstoque), quantidade)
                                    case Ok(e) => e
                                    case Err(_) => old(quantidadeEstoque))
    {
      if quantidade < 0 {
        return Fail(QuantidadeNegativa);
      }
      quantidadeEstoque := quantidadeEstoque + quantidade;
      r := Pass;
    }

    method RemoverEstoque(quantidade: int) returns (r: Outcome<ErroEstoque>)
      modifies this`quantidadeEstoque
      ensures r == (match Remover(old(quantidadeEstoque), quantidade)
                    case Ok(_) => Pass
                    case Err(e) => Fail(e))
      ensures quantidadeEstoque == (match Remover(old(quantidadeEstoque), quantidade)
                                    case Ok(e) => e
                                    case Err(_) => old(quantidadeEstoque))
    {
      if quantidade < 0 {
        return Fail(QuantidadeNegativa);
      }
      if quantidadeEstoque < quantidade {
        return Fail(EstoqueInsuficiente);
      }
      quantidadeEstoque := quantidadeEstoque - quantidade;
      r := Pass;
    }
  }

  /** With no cost the margin is 0, whatever the sale price (a policy, not a true margin). */
  lemma MargemCustoZero(p: Produto)
    requires p.precoCusto == 0
    ensures p.MargemLucro() == 0
  {
  }

  /**
   * A product sold at twice its cost has margin exactly 100.00%, and one
   * sold at cost has margin 0.
   */
  lemma MargemReferencias(p: Produto)
    requires p.precoCusto > 0
    ensures p.precoVenda == 2 * p.precoCusto ==> p.MargemLucro() == 10000
    ensures p.precoVenda == p.precoCusto ==> p.MargemLucro() == 0
  {
    var c, q := p.precoCusto, p.MargemLucro();
    if p.precoVenda == 2 * c {
      assert (2 * q - 1) * c <= 20000 * c < (2 * q + 1) * c;
      if q > 10000 {
        MultMonotona(c, 20001, 2 * q - 1);
      }
      if q < 10000 {
        MultMonotona(c, 2 * q + 1, 19999);
      }
    }
    if p.precoVenda == c {
      assert (2 * q - 1) * c <= 0 < (2 * q + 1) * c;
      if q > 0 {
        MultMonotona(c, 1, 2 * q - 1);
      }
    }
  }
}
