/**
 * CompraService.salvarCompra: checks the receipt, then for each line adds
 * its quantity to the product's stock and overwrites the product's cost
 * with the line's unit price, then recomputes the receipt total.
 */
module ServicoCompra {
  import opened Wrappers
  import opened ModeloProduto
  import opened ModeloCompra

  datatype ErroCompra =
    | FornecedorNuloNoLog      // the debug log dereferences the missing supplier before the check
    | UsuarioObrigatorio       // "Usuário é obrigatório"
    | CompraSemItens           // "Compra deve ter pelo menos um item"
    | FalhaEntrada(erro: ErroEstoque)

  /** A line as the loop sees it: product, quantity, unit price. */
  type Entrada = (Produto, int, int)

  function Entradas(itens: seq<ItemCompra>): (r: seq<Entrada>)
    reads itens
    ensures |r| == |itens|
    ensures forall j :: 0 <= j < |itens| ==> r[j] == (itens[j].produto, itens[j].quantidade, itens[j].precoUnitario)
  {
    if itens == [] then [] else [(itens[0].produto, itens[0].quantidade, itens[0].precoUnitario)] + Entradas(itens[1..])
  }

  /** The products the lines name. */
  ghost function ProdutosDe(itens: seq<ItemCompra>): set<Produto>
    reads itens
  {
    set i | i in itens :: i.produto
  }

  /** Total quantity the first n lines add to product p. */
  function SomaQtd(linhas: seq<Entrada>, n: nat, p: Produto): int
    requires n <= |linhas|
  {
    if n == 0 then 0
    else SomaQtd(linhas, n - 1, p) + (if linhas[n - 1].0 == p then linhas[n - 1].1 else 0)
  }

  /** The cost p has after the first n lines: the unit price of the last of them for p, or inicial when none names p. */
  function UltimoPreco(linhas: seq<Entrada>, n: nat, p: Produto, inicial: int): int
    requires n <= |linhas|
  {
    if n == 0 then inicial
    else if linhas[n - 1].0 == p then linhas[n - 1].2
    else UltimoPreco(linhas, n - 1, p, inicial)
  }

  /** Index of the first line with a negative quantity, or the number of lines if there is none. */
  function PrimeiraNegativa(linhas: seq<Entrada>): (f: nat)
    ensures f <= |linhas|
    ensures forall j :: 0 <= j < f ==> linhas[j].1 >= 0
    ensures f < |linhas| ==> linhas[f].1 < 0
  {
    if linhas == [] then 0
    else if linhas[0].1 < 0 then 0
    else 1 + PrimeiraNegativa(linhas[1..])
  }

  /**
   * The last line wins: the cost a product ends with is the unit price of
   * the last line for that product, and stays as it was when no line names it.
   */
  lemma {:induction false} UltimoPrecoDaUltimaLinha(linhas: seq<Entrada>, n: nat, p: Produto, inicial: int)
    requires n <= |linhas|
    ensures var c := UltimoPreco(linhas, n, p, inicial);
      || (exists j :: 0 <= j < n && linhas[j].0 == p && linhas[j].2 == c
            && forall k :: j < k < n ==> linhas[k].0 != p)
      || (c == inicial && forall k :: 0 <= k < n ==> linhas[k].0 != p)
  {
    if n > 0 && linhas[n - 1].0 != p {
      UltimoPrecoDaUltimaLinha(linhas, n - 1, p, inicial);
    }
  }

  /** A product that none of the first n lines names gets nothing from them. */
  lemma {:induction false} SomaQtdSemLinhas(linhas: seq<Entrada>, n: nat, p: Produto)
    requires n <= |linhas|
    requires forall k :: 0 <= k < n ==> linhas[k].0 != p
    ensures SomaQtd(linhas, n, p) == 0
  {
    if n > 0 {
      SomaQtdSemLinhas(linhas, n - 1, p);
    }
  }

  /**
   * Lines for a product add up: two lines of 5 and 7 units for the same
   * product raise its stock by 12, and its cost ends at the second price.
   */
  lemma DuasLinhasMesmoProduto(p: Produto, q: Produto)
    requires p != q
    ensures var ls := [(p, 5, 300), (q, 1, 999), (p, 7, 250)];
      SomaQtd(ls, 3, p) == 12 && UltimoPreco(ls, 3, p, 0) == 250 && SomaQtd(ls, 3, q) == 1
  {
    var ls := [(p, 5, 300), (q, 1, 999), (p, 7, 250)];
    assert SomaQtd(ls, 1, p) == 5 && SomaQtd(ls, 1, q) == 0;
  }

  /**
   * The cost is overwritten without validation: a line priced above the
   * product's sale price leaves the product with a cost above its price.
   */
  lemma CustoSemRevalidacao(p: Produto)
    ensures UltimoPreco([(p, 1, p.precoVenda + 1)], 1, p, p.precoCusto) > p.precoVenda
  {
  }

  /** The state the loop leaves product p in after the first n lines were applied. */
  ghost predicate Aplicado(p: Produto, ls: seq<Entrada>, n: nat, estoque0: int, custo0: int)
    requires n <= |ls|
    reads p
  {
    p.quantidadeEstoque == estoque0 + SomaQtd(ls, n, p) && p.precoCusto == UltimoPreco(ls, n, p, custo0)
  }

  /**
   * salvarCompra. A missing supplier fails in the debug log first; then a
   * missing user and an empty line list are refused before any stock
   * changes. The lines are then applied (EntrarLinhas) and, if they all
   * were, the receipt total is recomputed.
   */
  method SalvarCompra(compra: Compra) returns (r: Outcome<ErroCompra>)
    modifies ProdutosDe(compra.itens)`quantidadeEstoque, ProdutosDe(compra.itens)`precoCusto
    modifies compra`valorTotal
    ensures compra.fornecedor.None? ==> r == Fail(FornecedorNuloNoLog)
    ensures compra.fornecedor.Some? && compra.usuario.None? ==> r == Fail(UsuarioObrigatorio)
    ensures compra.fornecedor.Some? && compra.usuario.Some? && compra.itens == [] ==> r == Fail(CompraSemItens)
    ensures r == Fail(FornecedorNuloNoLog) || r == Fail(UsuarioObrigatorio) || r == Fail(CompraSemItens) ==>
      unchanged(ProdutosDe(compra.itens))
    ensures compra.fornecedor.Some? && compra.usuario.Some? && compra.itens != [] ==>
      var ls := old(Entradas(compra.itens));
      var f := PrimeiraNegativa(ls);
      && (r == if f == |ls| then Pass else Fail(FalhaEntrada(QuantidadeNegativa)))
      && (forall p :: p in old(ProdutosDe(compra.itens)) ==> Aplicado(p, ls, f, old(p.quantidadeEstoque), old(p.precoCusto)))
      && (r.Pass? ==> compra.valorTotal == SomaSubtotaisCompra(compra.itens))
    ensures r.Fail? ==> compra.valorTotal == old(compra.valorTotal)
  {
    if compra.fornecedor.None? {
      return Fail(FornecedorNuloNoLog);
    }
    if compra.usuario.None? {
      return Fail(UsuarioObrigatorio);
    }
    if compra.itens == [] {
      return Fail(CompraSemItens);
    }
    var ls := Entradas(compra.itens);
    forall j | 0 <= j < |ls|
      ensures ls[j].0 in ProdutosDe(compra.itens)
    {
      assert compra.itens[j] in compra.itens;
    }
    var e := EntrarLinhas(ls, ProdutosDe(compra.itens));
    if e.Fail? {
      return Fail(FalhaEntrada(e.error));
    }
    compra.AtualizarTotal();
    r := Pass;
  }

  /**
   * The loop of salvarCompra: for each line in order, adicionarEstoque of
   * its quantity on its product (stopping at a negative one, the earlier
   * lines applied) and then the product's cost set to the line's price.
   */
  method EntrarLinhas(ls: seq<Entrada>, ghost ps: set<Produto>) returns (r: Outcome<ErroEstoque>)
    requires forall j :: 0 <= j < |ls| ==> ls[j].0 in ps
    modifies ps`quantidadeEstoque, ps`precoCusto
    ensures var f := PrimeiraNegativa(ls);
      && (r == if f == |ls| then Pass else Fail(QuantidadeNegativa))
      && (forall p :: p in ps ==> Aplicado(p, ls, f, old(p.quantidadeEstoque), old(p.precoCusto)))
  {
    ghost var estoque0 := map p | p in ps :: p.quantidadeEstoque;
    ghost var custo0 := map p | p in ps :: p.precoCusto;
    var i := 0;
    while i < |ls|
      invariant 0 <= i <= |ls|
      invariant forall j :: 0 <= j < i ==> ls[j].1 >= 0
      invariant forall p :: p in ps ==> p in estoque0 && p in custo0 && Aplicado(p, ls, i, estoque0[p], custo0[p])
    {
      r := EntrarLinha(ls[i].0, ls, i, ps, estoque0, custo0);
      if r.Fail? {
        assert PrimeiraNegativa(ls) == i;
        return;
      }
      i := i + 1;
    }
    r := Pass;
  }

  /**
   * One pass of the loop, for line i: adicionarEstoque of the line's
   * quantity on its product, then the product's cost set to the line's
   * price. A negative quantity changes nothing.
   */
  method EntrarLinha(produto: Produto, ls: seq<Entrada>, i: nat, ghost ps: set<Produto>,
                     ghost estoque0: map<Produto, int>, ghost custo0: map<Produto, int>)
    returns (r: Outcome<ErroEstoque>)
    requires i < |ls| && ls[i].0 == produto && produto in ps
    requires forall p :: p in ps ==> p in estoque0 && p in custo0 && Aplicado(p, ls, i, estoque0[p], custo0[p])
    modifies produto`quantidadeEstoque, produto`precoCusto
    ensures r == if ls[i].1 < 0 then Fail(QuantidadeNegativa) else Pass
    ensures r.Fail? ==> forall p :: p in ps ==> Aplicado(p, ls, i, estoque0[p], custo0[p])
    ensures r.Pass? ==> forall p :: p in ps ==> Aplicado(p, ls, i + 1, estoque0[p], custo0[p])
  {
    r := produto.AdicionarEstoque(ls[i].1);
    if r.Fail? {
      return;
    }
    produto.precoCusto := ls[i].2;
    forall p | p in ps
      ensures Aplicado(p, ls, i + 1, estoque0[p], custo0[p])
    {
    }
  }
}
