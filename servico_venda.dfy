/**
 * VendaService: the checkout operations on an open sale, and the stock
 * decrement that finalizing a sale performs through ProdutoService.
 */
module ServicoVenda {
  import opened Wrappers
  import opened Usuarios
  import opened ModeloProduto
  import opened ModeloVenda
  import opened Validador
  import opened ServicoProduto

  datatype ErroVendaServico =
    | VendaNaoAberta             // "Não é possível adicionar/remover itens ..." (not ABERTA)
    | CodigoNaoEncontrado       // "Produto não encontrado: <código>"
    | ProdutoInativo             // "Produto inativo: <nome>"
    | EstoqueAbaixoDoPedido        // "Estoque insuficiente! Disponível: ..., Solicitado: ..."
    | EstoqueInsuficienteTotal   // "Estoque insuficiente para a quantidade total"
    | DescontoInvalido           // "Desconto deve estar entre 0% e 100%"
    | VendaInvalida(motivo: ErroVenda)
    | ValorPagoInsuficiente      // "Valor pago insuficiente"
    | FalhaBaixaEstoque(erro: ErroServico)

  /** The first line whose barcode equals codigo (stream().filter(...).findFirst()). */
  function IndiceComCodigo(itens: seq<ItemVenda>, codigo: string): (r: Option<nat>)
    reads itens
    ensures r.Some? ==> r.value < |itens| && itens[r.value].codigoBarras == codigo
    ensures r.Some? ==> forall j :: 0 <= j < r.value ==> itens[j].codigoBarras != codigo
    ensures r.None? ==> forall j :: 0 <= j < |itens| ==> itens[j].codigoBarras != codigo
  {
    if itens == [] then None
    else if itens[0].codigoBarras == codigo then Some(0)
    else match IndiceComCodigo(itens[1..], codigo)
      case None => None
      case Some(i) => Some(i + 1)
  }

  /** The stock movements finalizing asks for: each line's product id and quantity, in line order. */
  function Baixas(itens: seq<ItemVenda>): (r: seq<(Option<int>, int)>)
    reads itens, set i | i in itens :: i.produto
    ensures |r| == |itens|
    ensures forall j :: 0 <= j < |itens| ==> r[j] == (itens[j].produto.id, itens[j].quantidade)
  {
    if itens == [] then [] else [(itens[0].produto.id, itens[0].quantidade)] + Baixas(itens[1..])
  }

  /**
   * The loop of finalizarVenda on the table of stock levels: each line
   * removes its quantity (atualizarEstoque with the negated quantity), in
   * order, and the first failure stops the loop with the steps before it
   * already applied.
   */
  function BaixaEstoque(estoques: map<int, int>, linhas: seq<(Option<int>, int)>): (map<int, int>, Outcome<ErroServico>)
    decreases |linhas|
  {
    if linhas == [] then (estoques, Pass)
    else
      var (m, r) := PassoEstoque(estoques, linhas[0].0, -linhas[0].1);
      if r.Fail? then (m, r) else BaixaEstoque(m, linhas[1..])
  }

  /** One turn of the loop: the first line's step, then the rest unless it failed. */
  lemma BaixaEstoqueUmPasso(estoques: map<int, int>, linhas: seq<(Option<int>, int)>, m: map<int, int>, r: Outcome<ErroServico>)
    requires linhas != [] && (m, r) == PassoEstoque(estoques, linhas[0].0, -linhas[0].1)
    ensures r.Fail? ==> BaixaEstoque(estoques, linhas) == (m, r)
    ensures r.Pass? ==> BaixaEstoque(estoques, linhas) == BaixaEstoque(m, linhas[1..])
  {
  }

  /** Whether some line moves the stock of product k. */
  predicate Aparece(linhas: seq<(Option<int>, int)>, k: int)
  {
    exists j :: 0 <= j < |linhas| && linhas[j].0 == Some(k)
  }

  /** The total quantity the lines take from product k. */
  function QtdPara(linhas: seq<(Option<int>, int)>, k: int): int
  {
    if linhas == [] then 0
    else (if linhas[0].0 == Some(k) then linhas[0].1 else 0) + QtdPara(linhas[1..], k)
  }

  lemma {:induction false} QtdParaNaoNegativa(linhas: seq<(Option<int>, int)>, k: int)
    requires forall j :: 0 <= j < |linhas| ==> linhas[j].1 >= 0
    ensures QtdPara(linhas, k) >= 0
    ensures !Aparece(linhas, k) ==> QtdPara(linhas, k) == 0
  {
    if linhas != [] {
      QtdParaNaoNegativa(linhas[1..], k);
      if !Aparece(linhas, k) {
        assert !Aparece(linhas[1..], k) by {
          forall j | 0 <= j < |linhas| - 1 ensures linhas[1..][j].0 != Some(k) {
            assert linhas[1..][j] == linhas[j + 1];
          }
        }
      }
    }
  }

  /**
   * With non-negative line quantities, the stock decrement succeeds exactly
   * when every line names a stored product and no product is asked for more
   * than it holds in total over all its lines; the stock of each product
   * then drops by exactly that total.
   */
  lemma {:induction false} BaixaEstoqueSucesso(estoques: map<int, int>, linhas: seq<(Option<int>, int)>)
    requires forall j :: 0 <= j < |linhas| ==> linhas[j].1 >= 0
    ensures BaixaEstoque(estoques, linhas).1.Pass? <==>
      (forall j :: 0 <= j < |linhas| ==> linhas[j].0.Some? && linhas[j].0.value in estoques)
      && (forall k :: k in estoques && Aparece(linhas, k) ==> QtdPara(linhas, k) <= estoques[k])
    ensures BaixaEstoque(estoques, linhas).0.Keys == estoques.Keys
    ensures BaixaEstoque(estoques, linhas).1.Pass? ==>
      forall k :: k in estoques ==> BaixaEstoque(estoques, linhas).0[k] == estoques[k] - QtdPara(linhas, k)
    decreases |linhas|
  {
    if linhas == [] {
      return;
    }
    var (id, q) := linhas[0];
    var resto := linhas[1..];
    assert forall j :: 0 <= j < |resto| ==> resto[j] == linhas[j + 1];
    PassoEstoqueSoAlvo(estoques, id, -q);
    if id.None? || id.value !in estoques {
      return;
    }
    var k0 := id.value;
    assert Aparece(linhas, k0);
    QtdParaNaoNegativa(resto, k0);
    var (m, r) := PassoEstoque(estoques, id, -q);
    if r.Fail? {
      assert QtdPara(linhas, k0) > estoques[k0];
      return;
    }
    BaixaEstoqueSucesso(m, resto);
    forall k | k != k0
      ensures Aparece(linhas, k) <==> Aparece(resto, k)
      ensures QtdPara(linhas, k) == QtdPara(resto, k)
    {
      if Aparece(linhas, k) {
        var j :| 0 <= j < |linhas| && linhas[j].0 == Some(k);
        assert j > 0 && resto[j - 1] == linhas[j];
      }
      if Aparece(resto, k) {
        var j :| 0 <= j < |resto| && resto[j].0 == Some(k);
        assert linhas[j + 1] == resto[j];
      }
    }
    assert QtdPara(linhas, k0) == q + QtdPara(resto, k0);
    assert m[k0] == estoques[k0] - q;
  }

  class VendaService {
    const produtoService: ProdutoService

    constructor (produtoService: ProdutoService)
      ensures this.produtoService == produtoService
    {
      this.produtoService := produtoService;
    }

    /** criarNovaVenda: an open, empty sale for the user. */
    method CriarNovaVenda(usuario: Usuario) returns (venda: Venda)
      ensures fresh(venda)
      ensures venda.status == ABERTA && venda.usuario == Some(usuario) && venda.itens == []
      ensures venda.Totalizacao() == Totais(0, 0, 0, 0, 0, 0) && venda.formaPagamento == None
    {
      venda := new Venda();
      venda.usuario := Some(usuario);
      venda.status := ABERTA;
    }

    /**
     * adicionarItem: on an open sale, looks the barcode up, refuses an
     * inactive product or a quantity above its stock, then either merges
     * into the first line with that barcode (re-checking stock against the
     * merged quantity, and leaving the sale's totals as they were) or
     * appends a new line, which recomputes the totals. The quantity itself
     * is not checked to be positive. Every error leaves everything as it was.
     */
    method AdicionarItem(venda: Venda, codigo: string, quantidade: int) returns (r: Outcome<ErroVendaServico>)
      requires produtoService.Valid()
      modifies venda`itens, venda`subtotal, venda`desconto, venda`total, venda`troco
      modifies venda.itens`quantidade, venda.itens`subtotal
      ensures old(venda.status) != ABERTA ==> r == Fail(VendaNaoAberta)
      ensures old(venda.status) == ABERTA && !produtoService.ExisteCodigoBarras(codigo) ==> r == Fail(CodigoNaoEncontrado)
      ensures old(venda.status) == ABERTA && produtoService.ExisteCodigoBarras(codigo) ==>
        var p := produtoService.ProdutoComCodigo(codigo);
        var idx := old(IndiceComCodigo(venda.itens, codigo));
        && (!p.ativo ==> r == Fail(ProdutoInativo))
        && (p.ativo && p.quantidadeEstoque < quantidade ==> r == Fail(EstoqueAbaixoDoPedido))
        && (p.ativo && p.quantidadeEstoque >= quantidade && idx.Some? ==>
              var item := old(venda.itens[idx.value]);
              if p.quantidadeEstoque < old(item.quantidade) + quantidade then r == Fail(EstoqueInsuficienteTotal)
              else
                && r == Pass && venda.itens == old(venda.itens)
                && item.quantidade == old(item.quantidade) + quantidade && item.SubtotalEmDia()
                && (forall j :: 0 <= j < |venda.itens| && venda.itens[j] != item ==> unchanged(venda.itens[j]))
                && venda.Totalizacao() == old(venda.Totalizacao()))
        && (p.ativo && p.quantidadeEstoque >= quantidade && idx.None? ==>
              && r == Pass && |venda.itens| == |old(venda.itens)| + 1 && venda.itens[..|old(venda.itens)|] == old(venda.itens)
              && (forall j :: 0 <= j < |old(venda.itens)| ==> unchanged(old(venda.itens)[j]))
              && var novo := venda.itens[|venda.itens| - 1];
              && fresh(novo) && novo.produto == p && novo.codigoBarras == codigo && novo.nomeProduto == p.nome
              && novo.quantidade == quantidade && novo.precoUnitario == p.precoVenda && novo.desconto == 0
              && novo.venda == venda && novo.SubtotalEmDia()
              && venda.Totalizacao() == Recalcular(old(venda.Totalizacao()), SomaSubtotais(venda.itens)))
      ensures r.Fail? ==>
        && venda.itens == old(venda.itens) && venda.Totalizacao() == old(venda.Totalizacao())
        && forall j :: 0 <= j < |venda.itens| ==> unchanged(venda.itens[j])
    {
      if venda.status != ABERTA {
        return Fail(VendaNaoAberta);
      }
      var opt := produtoService.BuscarPorCodigoBarras(codigo);
      if opt.None? {
        return Fail(CodigoNaoEncontrado);
      }
      var produto := opt.value;
      if !produto.ativo {
        return Fail(ProdutoInativo);
      }
      if produto.quantidadeEstoque < quantidade {
        return Fail(EstoqueAbaixoDoPedido);
      }
      var existente := IndiceComCodigo(venda.itens, codigo);
      if existente.Some? {
        var item := venda.itens[existente.value];
        var novaQuantidade := item.quantidade + quantidade;
        if produto.quantidadeEstoque < novaQuantidade {
          return Fail(EstoqueInsuficienteTotal);
        }
        item.SetQuantidade(novaQuantidade);
      } else {
        var novoItem := new ItemVenda(produto, quantidade);
        venda.AdicionarItem(novoItem);
      }
      r := Pass;
    }

    /** removerItem: refused unless the sale is open; otherwise Venda.removerItem. */
    method RemoverItem(venda: Venda, item: ItemVenda) returns (r: Outcome<ErroVendaServico>)
      modifies venda`itens, venda`subtotal, venda`desconto, venda`total, venda`troco, item`venda
      ensures old(venda.status) != ABERTA ==> r == Fail(VendaNaoAberta) && unchanged(venda, item)
      ensures old(venda.status) == ABERTA ==>
        && r == Pass && venda.itens == RemovePrimeiro(old(venda.itens), item) && item.venda == null
        && venda.Totalizacao() == Recalcular(old(venda.Totalizacao()), SomaSubtotais(venda.itens))
    {
      if venda.status != ABERTA {
        return Fail(VendaNaoAberta);
      }
      venda.RemoverItem(item);
      r := Pass;
    }

    /**
     * aplicarDesconto: a percentage outside [0%, 100%] is refused and
     * nothing changes; otherwise it is stored and the totals recomputed.
     * The sale's status is not checked.
     */
    method AplicarDesconto(venda: Venda, percentual: int) returns (r: Outcome<ErroVendaServico>)
      modifies venda`descontoPercentual, venda`subtotal, venda`desconto, venda`total, venda`troco
      ensures r.Fail? <==> percentual < 0 || percentual > 10000
      ensures r.Fail? ==> r.error == DescontoInvalido && venda.Totalizacao() == old(venda.Totalizacao())
      ensures r.Pass? ==> venda.Totalizacao() == Recalcular(old(venda.Totalizacao()).(descontoPercentual := percentual), SomaSubtotais(venda.itens))
    {
      if percentual < 0 || percentual > 10000 {
        return Fail(DescontoInvalido);
      }
      venda.descontoPercentual := percentual;
      venda.RecalcularTotais();
      r := Pass;
    }

    /**
     * finalizarVenda: validarVenda, then the payment is compared with the
     * STORED total (before finalizar recomputes it); then the sale is closed
     * and each line's product stock is decremented by the line's quantity,
     * in line order. There is no check that the sale is still open. A
     * failing decrement stops the loop, the sale already closed and the
     * earlier decrements applied.
     */
    method FinalizarVenda(venda: Venda?, formaPagamento: string, valorPago: int) returns (r: Outcome<ErroVendaServico>)
      requires produtoService.Valid()
      modifies venda, produtoService.produtos.Values`quantidadeEstoque
      ensures produtoService.Valid()
      ensures old(ValidarVenda(venda)).Fail? ==> r == Fail(VendaInvalida(old(ValidarVenda(venda)).error))
      ensures old(ValidarVenda(venda)).Pass? && valorPago < old(venda.total) ==> r == Fail(ValorPagoInsuficiente)
      ensures r == Fail(ValorPagoInsuficiente) || (r.Fail? && r.error.VendaInvalida?) ==>
        (venda != null ==> unchanged(venda)) && produtoService.Estoques() == old(produtoService.Estoques())
      ensures old(ValidarVenda(venda)).Pass? && valorPago >= old(venda.total) ==>
        var (estoques, baixa) := BaixaEstoque(old(produtoService.Estoques()), old(Baixas(venda.itens)));
        && venda.status == FINALIZADA && venda.formaPagamento == Some(formaPagamento)
        && venda.itens == old(venda.itens) && venda.usuario == old(venda.usuario)
        && venda.Totalizacao() == Recalcular(old(venda.Totalizacao()).(valorPago := valorPago), SomaSubtotais(venda.itens))
        && produtoService.Estoques() == estoques
        && r == (if baixa.Pass? then Pass else Fail(FalhaBaixaEstoque(baixa.error)))
    {
      var v := ValidarVenda(venda);
      if v.Fail? {
        return Fail(VendaInvalida(v.error));
      }
      if valorPago < venda.total {
        return Fail(ValorPagoInsuficiente);
      }
      r := Fechar(venda, formaPagamento, valorPago);
    }

    /** The part of finalizarVenda after its checks: close the sale, then take the stock. */
    method Fechar(venda: Venda, formaPagamento: string, valorPago: int) returns (r: Outcome<ErroVendaServico>)
      requires produtoService.Valid()
      modifies venda, produtoService.produtos.Values`quantidadeEstoque
      ensures produtoService.Valid()
      ensures var (estoques, baixa) := BaixaEstoque(old(produtoService.Estoques()), old(Baixas(venda.itens)));
        && venda.status == FINALIZADA && venda.formaPagamento == Some(formaPagamento)
        && venda.itens == old(venda.itens) && venda.usuario == old(venda.usuario)
        && venda.Totalizacao() == Recalcular(old(venda.Totalizacao()).(valorPago := valorPago), SomaSubtotais(venda.itens))
        && produtoService.Estoques() == estoques
        && r == (if baixa.Pass? then Pass else Fail(FalhaBaixaEstoque(baixa.error)))
    {
      ghost var estoques0 := produtoService.Estoques();
      venda.Finalizar(formaPagamento, valorPago);
      assert produtoService.Estoques() == estoques0;
      var linhas := Baixas(venda.itens);
      assert linhas == old(Baixas(venda.itens));
      ghost var totais := venda.Totalizacao();
      var baixa := BaixarEstoque(linhas);
      assert venda.Totalizacao() == totais;
      r := if baixa.Pass? then Pass else Fail(FalhaBaixaEstoque(baixa.error));
    }

    /**
     * The loop of finalizarVenda: atualizarEstoque(produto id, -quantidade)
     * for each line in order, stopping at the first failure.
     */
    method BaixarEstoque(linhas: seq<(Option<int>, int)>) returns (r: Outcome<ErroServico>)
      requires produtoService.Valid()
      modifies produtoService.produtos.Values`quantidadeEstoque
      ensures produtoService.Valid()
      ensures produtoService.Estoques() == BaixaEstoque(old(produtoService.Estoques()), linhas).0
      ensures r == BaixaEstoque(old(produtoService.Estoques()), linhas).1
    {
      ghost var estoques0 := produtoService.Estoques();
      r := Pass;
      var i := 0;
      while i < |linhas|
        invariant 0 <= i <= |linhas|
        invariant produtoService.Valid()
        invariant BaixaEstoque(produtoService.Estoques(), linhas[i..]) == BaixaEstoque(estoques0, linhas)
        invariant r == Pass
      {
        var (id, quantidade) := linhas[i];
        ghost var antes := produtoService.Estoques();
        r := produtoService.AtualizarEstoque(id, -quantidade);
        BaixaEstoqueUmPasso(antes, linhas[i..], produtoService.Estoques(), r);
        if r.Fail? {
          return;
        }
        assert linhas[i..][1..] == linhas[i + 1..];
        i := i + 1;
      }
      assert linhas[i..] == [];
    }

    /** cancelarVenda: Venda.cancelar, from any status. */
    method CancelarVenda(venda: Venda)
      modifies venda`status
      ensures venda.status == CANCELADA
    {
      venda.Cancelar();
    }
  }
}
