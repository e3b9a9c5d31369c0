/**
 * FornecedorService: the supplier register over its repository. The
 * repository is a table of rows in id order (the order findAll returns)
 * plus the next identity value; the CNPJ column carries a unique index.
 */
module ServicoFornecedor {
  import opened Wrappers
  import opened Textos
  import opened Cadastros

  datatype ErroFornecedor =
    | NomeObrigatorio      // "Nome do fornecedor é obrigatório"
    | CnpjObrigatorio      // "CNPJ é obrigatório"
    | CnpjJaCadastrado     // "CNPJ já cadastrado!"
    | IdNuloNaAtualizacao  // "ID do fornecedor não pode ser nulo para atualização"
    | NaoEncontrado        // "Fornecedor não encontrado: ID ..."
    | FalhaAoSalvar        // the repository refused the row

  /** The repository's contents: stored rows in id order and the next identity value. */
  datatype Tabela = Tabela(linhas: seq<Fornecedor>, proximoId: int)

  /** A successful save: the new table and the row as stored. */
  datatype Gravacao = Gravacao(tabela: Tabela, salvo: Fornecedor)

  /**
   * Every row has an id handed out below proximoId, ids increase along the
   * table, and no two rows share a CNPJ (the unique index).
   */
  predicate Valida(t: Tabela)
  {
    && t.proximoId > 0
    && (forall i :: 0 <= i < |t.linhas| ==> t.linhas[i].id.Some? && 0 < t.linhas[i].id.value < t.proximoId)
    && (forall i, j :: 0 <= i < j < |t.linhas| ==> t.linhas[i].id.value < t.linhas[j].id.value)
    && (forall i, j :: 0 <= i < j < |t.linhas| ==> t.linhas[i].cnpj != t.linhas[j].cnpj)
  }

  /** findByCnpj: a stored row with that CNPJ, if there is one. */
  function BuscaCnpj(linhas: seq<Fornecedor>, cnpj: string): (r: Option<Fornecedor>)
    ensures r.None? <==> forall i :: 0 <= i < |linhas| ==> linhas[i].cnpj != cnpj
    ensures r.Some? ==> r.value in linhas && r.value.cnpj == cnpj
  {
    if linhas == [] then None
    else if linhas[0].cnpj == cnpj then Some(linhas[0])
    else BuscaCnpj(linhas[1..], cnpj)
  }

  /** findById: the position of the first row with that id, if there is one. */
  function Posicao(linhas: seq<Fornecedor>, id: int): (r: Option<nat>)
    ensures r.None? <==> forall i :: 0 <= i < |linhas| ==> linhas[i].id != Some(id)
    ensures r.Some? ==> r.value < |linhas| && linhas[r.value].id == Some(id)
  {
    if linhas == [] then None
    else if linhas[0].id == Some(id) then Some(0)
    else match Posicao(linhas[1..], id)
      case None => None
      case Some(p) => Some(p + 1)
  }

  /** Some row other than the one at position p holds this CNPJ. */
  predicate OutroComCnpj(linhas: seq<Fornecedor>, p: int, cnpj: string)
  {
    exists j :: 0 <= j < |linhas| && j != p && linhas[j].cnpj == cnpj
  }

  /**
   * The repository's save: a row without id is inserted at the end under
   * the next identity value; a row with an id replaces the stored row with
   * that id. An unknown id, or a CNPJ another row holds, is refused.
   */
  function Gravar(t: Tabela, f: Fornecedor): Result<Gravacao, ErroFornecedor>
  {
    match f.id
    case None =>
      if BuscaCnpj(t.linhas, f.cnpj).Some? then Err(FalhaAoSalvar)
      else
        var novo := f.(id := Some(t.proximoId));
        Ok(Gravacao(Tabela(t.linhas + [novo], t.proximoId + 1), novo))
    case Some(k) =>
      match Posicao(t.linhas, k)
      case None => Err(FalhaAoSalvar)
      case Some(p) =>
        if OutroComCnpj(t.linhas, p, f.cnpj) then Err(FalhaAoSalvar)
        else Ok(Gravacao(Tabela(t.linhas[p := f], t.proximoId), f))
  }

  /** salvar: a blank name, then a blank CNPJ, then (for a new row) a CNPJ in use are refused; then save. */
  function PassoSalvar(t: Tabela, f: Fornecedor): Result<Gravacao, ErroFornecedor>
  {
    if EmBranco(f.nome) then Err(NomeObrigatorio)
    else if EmBranco(f.cnpj) then Err(CnpjObrigatorio)
    else if f.id.None? && BuscaCnpj(t.linhas, f.cnpj).Some? then Err(CnpjJaCadastrado)
    else Gravar(t, f)
  }

  /** atualizar: only a missing id is refused before the save. */
  function PassoAtualizar(t: Tabela, f: Fornecedor): Result<Gravacao, ErroFornecedor>
  {
    if f.id.None? then Err(IdNuloNaAtualizacao) else Gravar(t, f)
  }

  /** desativar: the row with that id is saved again with ativo false. */
  function PassoDesativar(t: Tabela, id: int): Result<Gravacao, ErroFornecedor>
  {
    match Posicao(t.linhas, id)
    case None => Err(NaoEncontrado)
    case Some(p) => Gravar(t, t.linhas[p].(ativo := false))
  }

  /** The result a service call hands back for a save outcome. */
  function Devolvido(g: Result<Gravacao, ErroFornecedor>): Result<Fornecedor, ErroFornecedor>
  {
    match g
    case Ok(v) => Ok(v.salvo)
    case Err(e) => Err(e)
  }

  /** listarAtivos' filter over findAll: the rows with ativo set. */
  function Ativos(linhas: seq<Fornecedor>): (r: seq<Fornecedor>)
    ensures |r| <= |linhas|
    ensures forall x :: x in r <==> x in linhas && x.ativo
  {
    if linhas == [] then []
    else if linhas[0].ativo then [linhas[0]] + Ativos(linhas[1..])
    else Ativos(linhas[1..])
  }

  /** The filter keeps the table's order: it distributes over concatenation. */
  lemma {:induction false} AtivosConcat(a: seq<Fornecedor>, b: seq<Fornecedor>)
    ensures Ativos(a + b) == Ativos(a) + Ativos(b)
  {
    if a == [] {
      assert a + b == b;
    } else {
      assert (a + b)[1..] == a[1..] + b;
      AtivosConcat(a[1..], b);
    }
  }

  /** In a valid table the row with a given id is the only one with it. */
  lemma IdUnico(t: Tabela, i: int, j: int)
    requires Valida(t) && 0 <= i < |t.linhas| && 0 <= j < |t.linhas|
    requires t.linhas[i].id == t.linhas[j].id
    ensures i == j
  {
  }

  /** Every successful save keeps the table valid. */
  lemma GravarPreservaValida(t: Tabela, f: Fornecedor)
    requires Valida(t) && Gravar(t, f).Ok?
    ensures Valida(Gravar(t, f).value.tabela)
  {
    var n := Gravar(t, f).value.tabela;
    if f.id.Some? {
      var p := Posicao(t.linhas, f.id.value).value;
      assert n.linhas == t.linhas[p := f];
      forall i, j | 0 <= i < j < |n.linhas|
        ensures n.linhas[i].cnpj != n.linhas[j].cnpj
      {
        if i == p {
          assert !OutroComCnpj(t.linhas, p, f.cnpj);
          assert t.linhas[j].cnpj != f.cnpj;
        } else if j == p {
          assert !OutroComCnpj(t.linhas, p, f.cnpj);
          assert t.linhas[i].cnpj != f.cnpj;
        }
      }
    }
  }

  /**
   * A save inserts a new row at the end under a fresh id and leaves the
   * others alone, or replaces exactly the row with the given id; the
   * stored row is the one handed back.
   */
  lemma GravarEfeito(t: Tabela, f: Fornecedor)
    requires Valida(t) && Gravar(t, f).Ok?
    ensures var g := Gravar(t, f).value;
      f.id.None? ==>
        && g.tabela.linhas == t.linhas + [g.salvo]
        && g.salvo == f.(id := Some(t.proximoId))
        && (forall i :: 0 <= i < |t.linhas| ==> t.linhas[i].id != g.salvo.id)
    ensures var g := Gravar(t, f).value;
      f.id.Some? ==>
        && g.salvo == f && |g.tabela.linhas| == |t.linhas| && g.tabela.proximoId == t.proximoId
        && (forall i :: 0 <= i < |t.linhas| ==>
              g.tabela.linhas[i] == if t.linhas[i].id == f.id then f else t.linhas[i])
  {
    if f.id.Some? {
      var p := Posicao(t.linhas, f.id.value).value;
      forall i | 0 <= i < |t.linhas| && t.linhas[i].id == f.id
        ensures i == p
      {
        IdUnico(t, i, p);
      }
    }
  }

  /** salvar succeeds only for a non-blank name and CNPJ, and never stores a new CNPJ twice. */
  lemma SalvarValida(t: Tabela, f: Fornecedor)
    ensures PassoSalvar(t, f).Ok? ==> !EmBranco(f.nome) && !EmBranco(f.cnpj)
    ensures EmBranco(f.nome) <==> PassoSalvar(t, f) == Err(NomeObrigatorio)
    ensures !EmBranco(f.nome) && EmBranco(f.cnpj) <==> PassoSalvar(t, f) == Err(CnpjObrigatorio)
  {
  }

  /**
   * For a new supplier with a name and a CNPJ, salvar refuses exactly a
   * CNPJ that is already stored, and otherwise stores it.
   */
  lemma SalvarNovoCnpj(t: Tabela, f: Fornecedor)
    requires f.id.None? && !EmBranco(f.nome) && !EmBranco(f.cnpj)
    ensures PassoSalvar(t, f) == Err(CnpjJaCadastrado) <==> exists i :: 0 <= i < |t.linhas| && t.linhas[i].cnpj == f.cnpj
    ensures PassoSalvar(t, f).Ok? <==> forall i :: 0 <= i < |t.linhas| ==> t.linhas[i].cnpj != f.cnpj
  {
  }

  /**
   * With an id there is no CNPJ check in the service: the outcome is the
   * repository's, so a CNPJ held by another row fails only as a save error.
   */
  lemma SalvarComIdSemChecagem(t: Tabela, f: Fornecedor, j: int)
    requires f.id.Some? && !EmBranco(f.nome) && !EmBranco(f.cnpj)
    requires 0 <= j < |t.linhas| && t.linhas[j].cnpj == f.cnpj && t.linhas[j].id != f.id
    ensures PassoSalvar(t, f) == Err(FalhaAoSalvar)
  {
    match Posicao(t.linhas, f.id.value)
    case None =>
    case Some(p) =>
      assert OutroComCnpj(t.linhas, p, f.cnpj);
  }

  /**
   * atualizar refuses a missing id, and does no name or CNPJ validation:
   * a stored row can be replaced by one with a blank name and CNPJ.
   */
  lemma AtualizarSemValidacao(t: Tabela, f: Fornecedor, p: int)
    requires Valida(t) && 0 <= p < |t.linhas| && f.id == t.linhas[p].id
    requires forall j :: 0 <= j < |t.linhas| && j != p ==> t.linhas[j].cnpj != f.cnpj
    ensures PassoAtualizar(t, f) == Ok(Gravacao(Tabela(t.linhas[p := f], t.proximoId), f))
    ensures PassoAtualizar(t, f.(id := None)) == Err(IdNuloNaAtualizacao)
  {
    var q := Posicao(t.linhas, f.id.value).value;
    IdUnico(t, p, q);
  }

  /**
   * desativar succeeds exactly for a stored id; then that row, and only
   * that row, has ativo cleared, every other field stays, and no id is
   * handed out.
   */
  lemma DesativarEfeito(t: Tabela, id: int)
    requires Valida(t)
    ensures PassoDesativar(t, id).Ok? <==> exists i :: 0 <= i < |t.linhas| && t.linhas[i].id == Some(id)
    ensures PassoDesativar(t, id).Err? ==> PassoDesativar(t, id).error == NaoEncontrado
    ensures PassoDesativar(t, id).Ok? ==>
      var n := PassoDesativar(t, id).value.tabela;
      && n.proximoId == t.proximoId && |n.linhas| == |t.linhas|
      && (forall i :: 0 <= i < |t.linhas| ==>
            n.linhas[i] == if t.linhas[i].id == Some(id) then t.linhas[i].(ativo := false) else t.linhas[i])
  {
    match Posicao(t.linhas, id)
    case None =>
    case Some(p) =>
      var f := t.linhas[p].(ativo := false);
      assert !OutroComCnpj(t.linhas, p, f.cnpj);
      assert Posicao(t.linhas, f.id.value) == Some(p);
      GravarEfeito(t, f);
  }

  /** Deactivating twice leaves the same table as deactivating once. */
  lemma DesativarIdempotente(t: Tabela, id: int)
    requires Valida(t) && PassoDesativar(t, id).Ok?
    ensures var n := PassoDesativar(t, id).value.tabela;
      PassoDesativar(n, id).Ok? && PassoDesativar(n, id).value.tabela == n
  {
    var n := PassoDesativar(t, id).value.tabela;
    DesativarEfeito(t, id);
    GravarPreservaValida(t, t.linhas[Posicao(t.linhas, id).value].(ativo := false));
    DesativarEfeito(n, id);
    assert PassoDesativar(n, id).value.tabela.linhas == n.linhas;
  }

  /** After desativar the active list is the old one without that supplier. */
  lemma DesativarSaiDosAtivos(t: Tabela, id: int)
    requires Valida(t) && PassoDesativar(t, id).Ok?
    ensures var n := PassoDesativar(t, id).value.tabela;
      forall x :: x in Ativos(n.linhas) <==> x in Ativos(t.linhas) && x.id != Some(id)
  {
    var n := PassoDesativar(t, id).value.tabela;
    DesativarEfeito(t, id);
    forall x
      ensures x in n.linhas && x.ativo <==> x in t.linhas && x.ativo && x.id != Some(id)
    {
      if x in n.linhas && x.ativo {
        var i :| 0 <= i < |n.linhas| && n.linhas[i] == x;
        assert t.linhas[i] == x;
      }
      if x in t.linhas && x.ativo && x.id != Some(id) {
        var i :| 0 <= i < |t.linhas| && t.linhas[i] == x;
        assert n.linhas[i] == x;
      }
    }
  }

  class FornecedorService {
    var linhas: seq<Fornecedor>
    var proximoId: int

    function Estado(): Tabela
      reads this
    {
      Tabela(linhas, proximoId)
    }

    ghost predicate Valid()
      reads this
    {
      Valida(Estado())
    }

    /** The repository took on the table of a successful outcome, or kept its own. */
    twostate predicate Aplicou(g: Result<Gravacao, ErroFornecedor>)
      reads this
    {
      if g.Ok? then Estado() == g.value.tabela else Estado() == old(Estado())
    }

    constructor ()
      ensures Valid() && linhas == [] && proximoId == 1
    {
      linhas := [];
      proximoId := 1;
    }

    /** The repository's save. */
    method Save(f: Fornecedor) returns (r: Result<Fornecedor, ErroFornecedor>)
      requires Valid()
      modifies this
      ensures Valid()
      ensures Aplicou(old(Gravar(Estado(), f)))
      ensures r == Devolvido(old(Gravar(Estado(), f)))
    {
      ghost var t := Estado();
      if f.id.None? {
        if BuscaCnpj(linhas, f.cnpj).Some? {
          return Err(FalhaAoSalvar);
        }
        var novo := f.(id := Some(proximoId));
        linhas := linhas + [novo];
        proximoId := proximoId + 1;
        r := Ok(novo);
      } else {
        var p := Posicao(linhas, f.id.value);
        if p.None? || OutroComCnpj(linhas, p.value, f.cnpj) {
          return Err(FalhaAoSalvar);
        }
        linhas := linhas[p.value := f];
        r := Ok(f);
      }
      GravarPreservaValida(t, f);
    }

    method Salvar(f: Fornecedor) returns (r: Result<Fornecedor, ErroFornecedor>)
      requires Valid()
      modifies this
      ensures Valid()
      ensures Aplicou(old(PassoSalvar(Estado(), f)))
      ensures r == Devolvido(old(PassoSalvar(Estado(), f)))
    {
      if EmBranco(f.nome) {
        return Err(NomeObrigatorio);
      }
      if EmBranco(f.cnpj) {
        return Err(CnpjObrigatorio);
      }
      if f.id.None? {
        var existente := BuscaCnpj(linhas, f.cnpj);
        if existente.Some? {
          return Err(CnpjJaCadastrado);
        }
      }
      r := Save(f);
    }

    method Atualizar(f: Fornecedor) returns (r: Result<Fornecedor, ErroFornecedor>)
      requires Valid()
      modifies this
      ensures Valid()
      ensures Aplicou(old(PassoAtualizar(Estado(), f)))
      ensures r == Devolvido(old(PassoAtualizar(Estado(), f)))
    {
      if f.id.None? {
        return Err(IdNuloNaAtualizacao);
      }
      r := Save(f);
    }

    method Desativar(id: int) returns (r: Outcome<ErroFornecedor>)
      requires Valid()
      modifies this
      ensures Valid()
      ensures Aplicou(old(PassoDesativar(Estado(), id)))
      ensures r.Pass? <==> old(PassoDesativar(Estado(), id)).Ok?
      ensures r.Fail? ==> r.error == NaoEncontrado
    {
      ghost var t := Estado();
      DesativarEfeito(t, id);
      var p := Posicao(linhas, id);
      if p.None? {
        return Fail(NaoEncontrado);
      }
      var f := linhas[p.value].(ativo := false);
      var s := Save(f);
      assert s.Ok?;
      r := Pass;
    }

    /** listarAtivos */
    function ListarAtivos(): (r: seq<Fornecedor>)
      reads this
      ensures forall x :: x in r <==> x in linhas && x.ativo
    {
      Ativos(linhas)
    }
  }
}
