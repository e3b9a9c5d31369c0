/**
 * Compra: a goods receipt from a supplier, whose lines (ItemCompra) are
 * appended in order and whose total is the sum of the line subtotals.
 */
module ModeloCompra {
  import opened Wrappers
  import opened Usuarios
  import opened Cadastros
  import opened ModeloProduto

  /**
   * A receipt line. Only its fields are modelled: how ItemCompra computes
   * its subtotal is not part of this model, so the subtotal is taken as it is.
   */
  class ItemCompra {
    var compra: Compra?
    var produto: Produto
    var quantidade: int
    var precoUnitario: int
    var subtotal: int

    constructor (produto: Produto, quantidade: int, precoUnitario: int, subtotal: int)
      ensures compra == null && this.produto == produto && this.quantidade == quantidade
      ensures this.precoUnitario == precoUnitario && this.subtotal == subtotal
    {
      compra := null;
      this.produto := produto;
      this.quantidade := quantidade;
      this.precoUnitario := precoUnitario;
      this.subtotal := subtotal;
    }
  }

  /** The lines' subtotals added up in list order (the stream reduce from ZERO). */
  function SomaSubtotaisCompra(itens: seq<ItemCompra>): int
    reads itens
  {
    if itens == [] then 0 else SomaSubtotaisCompra(itens[..|itens| - 1]) + itens[|itens| - 1].subtotal
  }

  /** Appending a line adds exactly its subtotal to the total. */
  lemma SomaSubtotaisCompraAcrescenta(itens: seq<ItemCompra>, item: ItemCompra)
    ensures SomaSubtotaisCompra(itens + [item]) == SomaSubtotaisCompra(itens) + item.subtotal
  {
    assert (itens + [item])[..|itens|] == itens;
  }

  class Compra {
    var fornecedor: Option<Fornecedor>
    var usuario: Option<Usuario>
    var dataCompra: int
    var valorTotal: int
    var numeroNotaFiscal: Option<string>
    var itens: seq<ItemCompra>

    /** A new receipt stamped with the current time (given as agora), total 0 and no lines. */
    constructor (agora: int)
      ensures dataCompra == agora && valorTotal == 0 && itens == []
      ensures fornecedor == None && usuario == None && numeroNotaFiscal == None
    {
      fornecedor := None;
      usuario := None;
      dataCompra := agora;
      valorTotal := 0;
      numeroNotaFiscal := None;
      itens := [];
    }

    /** atualizarTotal: the total is the sum of the line subtotals, whatever it was before. */
    method AtualizarTotal()
      modifies this`valorTotal
      ensures valorTotal == SomaSubtotaisCompra(itens)
    {
      valorTotal := SomaSubtotaisCompra(itens);
    }

    /** adicionarItem: appends the line, points it back at this receipt, and updates the total. */
    method AdicionarItem(item: ItemCompra)
      modifies this`itens, this`valorTotal, item`compra
      ensures itens == old(itens) + [item] && item.compra == this
      ensures valorTotal == SomaSubtotaisCompra(itens)
      ensures valorTotal == SomaSubtotaisCompra(old(itens)) + item.subtotal
    {
      itens := itens + [item];
      item.compra := this;
      AtualizarTotal();
      SomaSubtotaisCompraAcrescenta(old(itens), item);
    }
  }
}
