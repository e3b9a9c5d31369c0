/**
 * Venda and ItemVenda: a checkout sale holding an ordered list of lines, and
 * the totals it recomputes from them.
 */
module ModeloVenda {
  import opened Wrappers
  import opened Decimais
  import opened Usuarios
  import opened ModeloProduto
  import opened Textos

  datatype StatusVenda = ABERTA | FINALIZADA | CANCELADA

  /** A line's subtotal: unit price x quantity - line discount, in cents. */
  function SubtotalLinha(precoUnitario: int, quantidade: int, desconto: int): int
  {
    precoUnitario * quantidade - desconto
  }

  class ItemVenda {
    var venda: Venda?
    var produto: Produto
    var codigoBarras: string
    var nomeProduto: string
    var quantidade: int
    var precoUnitario: int
    var desconto: int
    var subtotal: int

    /** The line's stored subtotal agrees with its price, quantity and discount. */
    ghost predicate SubtotalEmDia()
      reads this
    {
      subtotal == SubtotalLinha(precoUnitario, quantidade, desconto)
    }

    /**
     * ItemVenda(Produto, Integer): snapshots the product's barcode, name and
     * sale price; the line does not follow later changes to the product.
     */
    constructor (produto: Produto, quantidade: int)
      ensures this.produto == produto && venda == null
      ensures codigoBarras == produto.codigoBarras && nomeProduto == produto.nome
      ensures precoUnitario == produto.precoVenda && this.quantidade == quantidade && desconto == 0
      ensures subtotal == produto.precoVenda * quantidade
      ensures SubtotalEmDia()
    {
      venda := null;
      this.produto := produto;
      codigoBarras := produto.codigoBarras;
      nomeProduto := produto.nome;
      this.quantidade := quantidade;
      precoUnitario := produto.precoVenda;
      desconto := 0;
      new;
      CalcularSubtotal();
    }

    method CalcularSubtotal()
      modifies this`subtotal
      ensures SubtotalEmDia()
    {
      subtotal := precoUnitario * quantidade - desconto;
    }

    /** setQuantidade: only the quantity and the subtotal change. */
    method SetQuantidade(quantidade: int)
      modifies this`quantidade, this`subtotal
      ensures this.quantidade == quantidade && SubtotalEmDia()
    {
      this.quantidade := quantidade;
      CalcularSubtotal();
    }

    /** setDesconto: only the discount and the subtotal change. */
    method SetDesconto(desconto: int)
      modifies this`desconto, this`subtotal
      ensures this.desconto == desconto && SubtotalEmDia()
    {
      this.desconto := desconto;
      CalcularSubtotal();
    }
  }

  /** Sum of the lines' stored subtotals, added up in list order (the stream reduce). */
  function SomaSubtotais(itens: seq<ItemVenda>): int
    reads itens
  {
    if itens == [] then 0 else SomaSubtotais(itens[..|itens| - 1]) + itens[|itens| - 1].subtotal
  }

  /** List.remove(Object): drops the first occurrence, if any, and keeps the rest in order. */
  function RemovePrimeiro<T(==)>(s: seq<T>, x: T): (r: seq<T>)
  {
    if x in s then s[..Primeiro(s, x)] + s[Primeiro(s, x) + 1..] else s
  }

  /**
   * Removing a line takes exactly one copy of it out of the list and keeps
   * every other line, in order.
   */
  lemma RemovePrimeiroUmaVez<T>(s: seq<T>, x: T)
    ensures x in s ==> multiset(RemovePrimeiro(s, x)) == multiset(s) - multiset{x}
    ensures x in s ==> |RemovePrimeiro(s, x)| == |s| - 1
    ensures x !in s ==> RemovePrimeiro(s, x) == s
    ensures forall y :: y != x ==> multiset(RemovePrimeiro(s, x))[y] == multiset(s)[y]
  {
    if x in s {
      var k := Primeiro(s, x);
      assert s == s[..k] + [x] + s[k + 1..];
      calc {
        multiset(s);
        multiset(s[..k]) + multiset{x} + multiset(s[k + 1..]);
        multiset(RemovePrimeiro(s, x)) + multiset{x};
      }
    }
  }

  /** The money fields of a sale, which recalcularTotais recomputes together. */
  datatype Totais = Totais(subtotal: int, desconto: int, descontoPercentual: int, total: int, valorPago: int, troco: int)

  /**
   * recalcularTotais on the money fields: subtotal is the line sum; the
   * discount is recomputed only for a positive percentage (a zero percentage
   * keeps the previous discount); total = subtotal - discount; the change is
   * recomputed only when something was paid.
   */
  function Recalcular(t: Totais, somaItens: int): Totais
  {
    var desconto := if t.descontoPercentual > 0 then DescontoDe(somaItens, t.descontoPercentual) else t.desconto;
    var total := somaItens - desconto;
    var troco := if t.valorPago > 0 then t.valorPago - total else t.troco;
    t.(subtotal := somaItens, desconto := desconto, total := total, troco := troco)
  }

  class Venda {
    var usuario: Option<Usuario>
    var itens: seq<ItemVenda>
    var subtotal: int
    var desconto: int
    var descontoPercentual: int
    var total: int
    var formaPagamento: Option<string>
    var valorPago: int
    var troco: int
    var status: StatusVenda

    /** A new sale: open, no lines, every amount zero. */
    constructor ()
      ensures usuario == None && itens == [] && formaPagamento == None && status == ABERTA
      ensures Totalizacao() == Totais(0, 0, 0, 0, 0, 0)
    {
      usuario := None;
      itens := [];
      subtotal, desconto, descontoPercentual, total := 0, 0, 0, 0;
      formaPagamento := None;
      valorPago, troco := 0, 0;
      status := ABERTA;
    }

    function Totalizacao(): Totais
      reads this
    {
      Totais(subtotal, desconto, descontoPercentual, total, valorPago, troco)
    }

    method RecalcularTotais()
      modifies this`subtotal, this`desconto, this`total, this`troco
      ensures Totalizacao() == Recalcular(old(Totalizacao()), SomaSubtotais(itens))
    {
      subtotal := SomaSubtotais(itens);
      if descontoPercentual > 0 {
        desconto := DescontoDe(subtotal, descontoPercentual);
      }
      total := subtotal - desconto;
      if valorPago > 0 {
        troco := valorPago - total;
      }
    }

    /** adicionarItem: appends the line, points it back at this sale, and recomputes. */
    method AdicionarItem(item: ItemVenda)
      modifies this`itens, this`subtotal, this`desconto, this`total, this`troco, item`venda
      ensures itens == old(itens) + [item] && item.venda == this
      ensures Totalizacao() == Recalcular(old(Totalizacao()), SomaSubtotais(itens))
    {
      itens := itens + [item];
      item.venda := this;
      RecalcularTotais();
    }

    /** removerItem: drops the first occurrence of the line, detaches it, and recomputes. */
    method RemoverItem(item: ItemVenda)
      modifies this`itens, this`subtotal, this`desconto, this`total, this`troco, item`venda
      ensures itens == RemovePrimeiro(old(itens), item) && item.venda == null
      ensures Totalizacao() == Recalcular(old(Totalizacao()), SomaSubtotais(itens))
    {
      itens := RemovePrimeiro(itens, item);
      item.venda := null;
      RecalcularTotais();
    }

    /** finalizar: records the payment, closes the sale and recomputes. */
    method Finalizar(formaPagamento: string, valorPago: int)
      modifies this`formaPagamento, this`valorPago, this`status, this`subtotal, this`desconto, this`total, this`troco
      ensures this.formaPagamento == Some(formaPagamento) && status == FINALIZADA
      ensures Totalizacao() == Recalcular(old(Totalizacao()).(valorPago := valorPago), SomaSubtotais(itens))
    {
      this.formaPagamento := Some(formaPagamento);
      this.valorPago := valorPago;
      status := FINALIZADA;
      RecalcularTotais();
    }

    /** cancelar: from any status, and nothing else changes. */
    method Cancelar()
      modifies this`status
      ensures status == CANCELADA
    {
      status := CANCELADA;
    }
  }

  /** Adding one line to the end adds its subtotal to the line sum. */
  lemma SomaSubtotaisAcrescenta(itens: seq<ItemVenda>, item: ItemVenda)
    ensures SomaSubtotais(itens + [item]) == SomaSubtotais(itens) + item.subtotal
  {
    assert (itens + [item])[..|itens|] == itens;
  }

  /** recalcularTotais is idempotent: a second run over the same lines changes nothing. */
  lemma RecalcularIdempotente(t: Totais, somaItens: int)
    ensures Recalcular(Recalcular(t, somaItens), somaItens) == Recalcular(t, somaItens)
  {
  }

  /**
   * For a non-negative line sum and a percentage in (0%, 100%], the discount
   * is between zero and the subtotal and the total between zero and the subtotal.
   */
  lemma RecalcularLimites(t: Totais, somaItens: int)
    requires somaItens >= 0 && 0 < t.descontoPercentual <= 10000
    ensures var r := Recalcular(t, somaItens);
      r.subtotal == somaItens && 0 <= r.desconto <= somaItens && 0 <= r.total <= somaItens
  {
    DescontoLimitado(somaItens, t.descontoPercentual);
  }

  /**
   * A zero percentage does not clear an earlier discount: 10% of R$ 50,00
   * followed by 0% still leaves R$ 5,00 off and a total of R$ 45,00.
   */
  lemma PercentualZeroMantemDesconto()
    ensures var t1 := Recalcular(Totais(5000, 0, 1000, 5000, 0, 0), 5000);
      var t2 := Recalcular(t1.(descontoPercentual := 0), 5000);
      t1.desconto == 500 && t2.desconto == 500 && t2.total == 4500
  {
  }

  /**
   * The worked checkout: R$ 50,00 of goods, 10% off, paid with R$ 50,00,
   * gives a discount of R$ 5,00, a total of R$ 45,00 and R$ 5,00 change.
   */
  lemma ExemploCheckout()
    ensures var t1 := Recalcular(Totais(0, 0, 1000, 0, 0, 0), 5000);
      var t2 := Recalcular(t1.(valorPago := 5000), 5000);
      t1.desconto == 500 && t1.total == 4500 && t2.troco == 500
  {
  }
}
