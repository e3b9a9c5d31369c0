/**
 * ProdutoService: the product catalogue over its repository, which is
 * modelled as a table from id to the stored product object.
 */
module ServicoProduto {
  import opened Wrappers
  import opened ModeloProduto
  import opened Validador

  datatype ErroServico =
    | ProdutoNuloNoLog             // the debug log dereferences a null product first
    | Invalido(motivo: ErroProduto) // validarProduto rejected it
    | CodigoBarrasJaCadastrado     // "Código de barras já cadastrado!"
    | IdNuloNaAtualizacao          // "ID do produto não pode ser nulo para atualização"
    | IdNulo                       // findById(null) is refused by the repository
    | NaoEncontrado                // "Produto não encontrado: ID ..."
    | FalhaAoSalvar                // the repository refused the row (wrapped "Erro ao salvar produto")
    | FalhaEstoque(erro: ErroEstoque)

  /** atualizarEstoque's signed dispatch: a positive delta adds, any other removes its magnitude. */
  function Ajustar(estoque: int, delta: int): Result<int, ErroEstoque>
  {
    if delta > 0 then Adicionar(estoque, delta) else Remover(estoque, -delta)
  }

  /**
   * A signed adjustment either moves the stock by exactly delta or fails;
   * it fails only for a removal larger than the stock; a delta of 0 changes
   * nothing on a non-negative stock.
   */
  lemma AjustarSinal(estoque: int, delta: int)
    ensures Ajustar(estoque, delta).Ok? ==> Ajustar(estoque, delta).value == estoque + delta
    ensures Ajustar(estoque, delta).Ok? <==> delta > 0 || estoque + delta >= 0
    ensures Ajustar(estoque, delta).Err? ==> Ajustar(estoque, delta).error == EstoqueInsuficiente
    ensures estoque >= 0 ==> Ajustar(estoque, 0) == Ok(estoque)
  {
  }

  class ProdutoService {
    var produtos: map<int, Produto>
    var proximoId: int

    /**
     * Every stored product carries its own key as id, keys were handed out
     * below proximoId, and barcodes are unique (the unique column index).
     */
    ghost predicate Valid()
      reads this, produtos.Values
    {
      && proximoId > 0
      && (forall k :: k in produtos ==> produtos[k].id == Some(k) && 0 < k < proximoId)
      && (forall k1, k2 :: k1 in produtos && k2 in produtos && produtos[k1].codigoBarras == produtos[k2].codigoBarras ==> k1 == k2)
    }

    /** The stock level of every stored product, by id. */
    ghost function Estoques(): map<int, int>
      reads this, produtos.Values
    {
      map k | k in produtos :: produtos[k].quantidadeEstoque
    }

    constructor ()
      ensures Valid() && produtos == map[] && proximoId == 1
    {
      produtos := map[];
      proximoId := 1;
    }

    /** existsByCodigoBarras */
    predicate ExisteCodigoBarras(codigo: string)
      reads this, produtos.Values
    {
      exists k :: k in produtos && produtos[k].codigoBarras == codigo
    }

    /** The stored product with a barcode that is in use; barcodes are unique, so there is one. */
    ghost function ProdutoComCodigo(codigo: string): (p: Produto)
      requires Valid() && ExisteCodigoBarras(codigo)
      reads this, produtos.Values
      ensures p in produtos.Values && p.codigoBarras == codigo
      ensures forall k :: k in produtos && produtos[k].codigoBarras == codigo ==> produtos[k] == p
    {
      var k :| k in produtos && produtos[k].codigoBarras == codigo;
      produtos[k]
    }

    /** buscarPorCodigoBarras: the stored product with that barcode, if any. */
    method BuscarPorCodigoBarras(codigo: string) returns (r: Option<Produto>)
      requires Valid()
      ensures r.None? <==> !ExisteCodigoBarras(codigo)
      ensures r.Some? ==> r.value == ProdutoComCodigo(codigo)
    {
      if k :| k in produtos && produtos[k].codigoBarras == codigo {
        r := Some(produtos[k]);
      } else {
        r := None;
      }
    }

    /**
     * Whether the repository accepts a row with this id and barcode: a new
     * row needs an unused barcode; an existing id needs its row to be
     * stored and no other row to hold the barcode.
     */
    predicate AceitaGravar(id: Option<int>, codigo: string)
      reads this, produtos.Values
    {
      match id
      case None => !ExisteCodigoBarras(codigo)
      case Some(k) => k in produtos && forall j :: j in produtos && produtos[j].codigoBarras == codigo ==> j == k
    }

    /** The table and the id counter are as they were. */
    twostate predicate RepositorioInalterado()
      reads this
    {
      produtos == old(produtos) && proximoId == old(proximoId)
    }

    /**
     * p is now the stored row: under a fresh id if it had none (the counter
     * moves on), in place of the row with its id otherwise.
     */
    twostate predicate Gravou(p: Produto)
      reads this, p
    {
      match old(p.id)
      case None => p.id == Some(old(proximoId)) && produtos == old(produtos)[old(proximoId) := p] && proximoId == old(proximoId) + 1
      case Some(k) => p.id == Some(k) && produtos == old(produtos)[k := p] && proximoId == old(proximoId)
    }

    /** The repository's save. */
    method Save(p: Produto) returns (r: Outcome<ErroServico>)
      requires Valid()
      modifies this, p`id
      ensures Valid()
      ensures r.Pass? <==> old(AceitaGravar(p.id, p.codigoBarras))
      ensures r.Pass? ==> Gravou(p)
      ensures r.Fail? ==> r == Fail(FalhaAoSalvar) && RepositorioInalterado() && p.id == old(p.id)
    {
      if p.id.None? {
        if ExisteCodigoBarras(p.codigoBarras) {
          return Fail(FalhaAoSalvar);
        }
        p.id := Some(proximoId);
        produtos := produtos[proximoId := p];
        proximoId := proximoId + 1;
        return Pass;
      }
      var id := p.id.value;
      if id !in produtos || exists k :: k in produtos && produtos[k].codigoBarras == p.codigoBarras && k != id {
        return Fail(FalhaAoSalvar);
      }
      produtos := produtos[id := p];
      r := Pass;
    }

    /**
     * salvar: validation first, then a new product whose barcode is already
     * stored is refused, then the repository save.
     */
    method Salvar(p: Produto?) returns (r: Outcome<ErroServico>)
      requires Valid()
      modifies this, (if p == null then {} else {p})`id
      ensures Valid()
      ensures p == null ==> r == Fail(ProdutoNuloNoLog)
      ensures p != null && ValidarProduto(p).Fail? ==> r == Fail(Invalido(ValidarProduto(p).error))
      ensures p != null && ValidarProduto(p).Pass? && old(p.id).None? && old(ExisteCodigoBarras(p.codigoBarras))
        ==> r == Fail(CodigoBarrasJaCadastrado)
      ensures p != null && ValidarProduto(p).Pass? && old(p.id).Some?
        ==> (r.Pass? <==> old(AceitaGravar(p.id, p.codigoBarras)))
      ensures p != null && ValidarProduto(p).Pass? && old(p.id).None? && !old(ExisteCodigoBarras(p.codigoBarras))
        ==> r.Pass?
      ensures r.Pass? ==> p != null && Gravou(p)
      ensures r.Fail? ==> RepositorioInalterado() && (p != null ==> p.id == old(p.id))
    {
      if p == null {
        return Fail(ProdutoNuloNoLog);
      }
      var v := ValidarProduto(p);
      if v.Fail? {
        return Fail(Invalido(v.error));
      }
      if p.id.None? && ExisteCodigoBarras(p.codigoBarras) {
        return Fail(CodigoBarrasJaCadastrado);
      }
      r := Save(p);
    }

    /** atualizar: validation first, then a null id is refused, then the repository save. */
    method Atualizar(p: Produto?) returns (r: Outcome<ErroServico>)
      requires Valid()
      modifies this, (if p == null then {} else {p})`id
      ensures Valid()
      ensures p == null ==> r == Fail(ProdutoNuloNoLog)
      ensures p != null && ValidarProduto(p).Fail? ==> r == Fail(Invalido(ValidarProduto(p).error))
      ensures p != null && ValidarProduto(p).Pass? && old(p.id).None? ==> r == Fail(IdNuloNaAtualizacao)
      ensures p != null && ValidarProduto(p).Pass? && old(p.id).Some?
        ==> (r.Pass? <==> old(AceitaGravar(p.id, p.codigoBarras)))
      ensures r.Pass? ==> p != null && Gravou(p)
      ensures r.Fail? ==> RepositorioInalterado() && (p != null ==> p.id == old(p.id))
    {
      if p == null {
        return Fail(ProdutoNuloNoLog);
      }
      var v := ValidarProduto(p);
      if v.Fail? {
        return Fail(Invalido(v.error));
      }
      if p.id.None? {
        return Fail(IdNuloNaAtualizacao);
      }
      r := Save(p);
    }

    /** desativar (soft delete): only the stored product's ativo flag changes. */
    method Desativar(id: int) returns (r: Outcome<ErroServico>)
      requires Valid()
      modifies produtos.Values`ativo
      ensures Valid()
      ensures r.Pass? <==> id in produtos
      ensures r.Fail? ==> r.error == NaoEncontrado
      ensures id in produtos ==> !produtos[id].ativo
      ensures forall k :: k in produtos && k != id ==> produtos[k].ativo == old(produtos[k].ativo)
    {
      if id !in produtos {
        return Fail(NaoEncontrado);
      }
      var p := produtos[id];
      p.ativo := false;
      forall k | k in produtos && k != id
        ensures produtos[k] != p
      {
        assert produtos[k].id != p.id;
      }
      r := Pass;
    }

    /**
     * atualizarEstoque: looks the product up by id and applies the signed
     * adjustment to its stock; only that product's stock can change.
     */
    method AtualizarEstoque(id: Option<int>, delta: int) returns (r: Outcome<ErroServico>)
      requires Valid()
      modifies produtos.Values`quantidadeEstoque
      ensures Valid()
      ensures Estoques() == PassoEstoque(old(Estoques()), id, delta).0
      ensures r == PassoEstoque(old(Estoques()), id, delta).1
    {
      if id.None? {
        return Fail(IdNulo);
      }
      var k := id.value;
      if k !in produtos {
        return Fail(NaoEncontrado);
      }
      var p := produtos[k];
      var e;
      if delta > 0 {
        e := p.AdicionarEstoque(delta);
      } else {
        e := p.RemoverEstoque(-delta);
      }
      forall j | j in produtos && j != k
        ensures produtos[j] != p
      {
        assert produtos[j].id != p.id;
      }
      assert Estoques() == if e.Pass? then old(Estoques())[k := p.quantidadeEstoque] else old(Estoques());
      r := if e.Pass? then Pass else Fail(FalhaEstoque(e.error));
    }
  }

  /**
   * atualizarEstoque on the table of stock levels: a null id and an unknown
   * id are errors, otherwise the product's level is adjusted or the stock
   * rule's error is reported; on an error nothing changes.
   */
  function PassoEstoque(estoques: map<int, int>, id: Option<int>, delta: int): (map<int, int>, Outcome<ErroServico>)
  {
    if id.None? then (estoques, Fail(IdNulo))
    else if id.value !in estoques then (estoques, Fail(NaoEncontrado))
    else match Ajustar(estoques[id.value], delta)
      case Ok(novo) => (estoques[id.value := novo], Pass)
      case Err(e) => (estoques, Fail(FalhaEstoque(e)))
  }

  /**
   * Only the targeted product's stock changes, by exactly delta, and only
   * when the step succeeds; the set of products is the same.
   */
  lemma PassoEstoqueSoAlvo(estoques: map<int, int>, id: Option<int>, delta: int)
    ensures var (novo, r) := PassoEstoque(estoques, id, delta);
      && novo.Keys == estoques.Keys
      && (forall k :: k in estoques && Some(k) != id ==> novo[k] == estoques[k])
      && (r.Pass? ==> id.Some? && id.value in estoques && novo[id.value] == estoques[id.value] + delta)
      && (r.Fail? ==> novo == estoques)
  {
    if id.Some? && id.value in estoques {
      AjustarSinal(estoques[id.value], delta);
    }
  }
}
