/**
 * CategoriaService: the product categories over their repository. The
 * repository is a table of rows in id order plus the next identity value;
 * the name column is unique in the database, not in the service.
 */
module ServicoCategoria {
  import opened Wrappers
  import opened Textos
  import opened Cadastros

  datatype ErroCategoria =
    | NomeObrigatorio      // "Nome da categoria é obrigatório"
    | IdNuloNaAtualizacao  // "ID da categoria não pode ser nulo para atualização"
    | NaoEncontrada        // "Categoria não encontrada: ID ..."
    | FalhaAoSalvar        // the repository refused the row

  /** The repository's contents: stored rows in id order and the next identity value. */
  datatype Tabela = Tabela(linhas: seq<Categoria>, proximoId: int)

  /** A successful save: the new table and the row as stored. */
  datatype Gravacao = Gravacao(tabela: Tabela, salvo: Categoria)

  /**
   * Every row has an id handed out below proximoId, ids increase along the
   * table, and no two rows share a name (the unique column).
   */
  predicate Valida(t: Tabela)
  {
    && t.proximoId > 0
    && (forall i :: 0 <= i < |t.linhas| ==> t.linhas[i].id.Some? && 0 < t.linhas[i].id.value < t.proximoId)
    && (forall i, j :: 0 <= i < j < |t.linhas| ==> t.linhas[i].id.value < t.linhas[j].id.value)
    && (forall i, j :: 0 <= i < j < |t.linhas| ==> t.linhas[i].nome != t.linhas[j].nome)
  }

  /** findById: the position of the first row with that id, if there is one. */
  function Posicao(linhas: seq<Categoria>, id: int): (r: Option<nat>)
    ensures r.None? <==> forall i :: 0 <= i < |linhas| ==> linhas[i].id != Some(id)
    ensures r.Some? ==> r.value < |linhas| && linhas[r.value].id == Some(id)
  {
    if linhas == [] then None
    else if linhas[0].id == Some(id) then Some(0)
    else match Posicao(linhas[1..], id)
      case None => None
      case Some(p) => Some(p + 1)
  }

  /** Some row other than the one at position p (any row, for p = -1) holds this name. */
  predicate OutraComNome(linhas: seq<Categoria>, p: int, nome: string)
  {
    exists j :: 0 <= j < |linhas| && j != p && linhas[j].nome == nome
  }

  /**
   * The repository's save: a row without id is inserted at the end under
   * the next identity value; a row with an id replaces the stored row with
   * that id. An unknown id, or a name another row holds, is refused.
   */
  function Gravar(t: Tabela, c: Categoria): Result<Gravacao, ErroCategoria>
  {
    match c.id
    case None =>
      if OutraComNome(t.linhas, -1, c.nome) then Err(FalhaAoSalvar)
      else
        var nova := c.(id := Some(t.proximoId));
        Ok(Gravacao(Tabela(t.linhas + [nova], t.proximoId + 1), nova))
    case Some(k) =>
      match Posicao(t.linhas, k)
      case None => Err(FalhaAoSalvar)
      case Some(p) =>
        if OutraComNome(t.linhas, p, c.nome) then Err(FalhaAoSalvar)
        else Ok(Gravacao(Tabela(t.linhas[p := c], t.proximoId), c))
  }

  /** salvar: only a blank name is refused before the save. */
  function PassoSalvar(t: Tabela, c: Categoria): Result<Gravacao, ErroCategoria>
  {
    if EmBranco(c.nome) then Err(NomeObrigatorio) else Gravar(t, c)
  }

  /** atualizar: only a missing id is refused before the save. */
  function PassoAtualizar(t: Tabela, c: Categoria): Result<Gravacao, ErroCategoria>
  {
    if c.id.None? then Err(IdNuloNaAtualizacao) else Gravar(t, c)
  }

  /** desativar: the row with that id is saved again with ativo false. */
  function PassoDesativar(t: Tabela, id: int): Result<Gravacao, ErroCategoria>
  {
    match Posicao(t.linhas, id)
    case None => Err(NaoEncontrada)
    case Some(p) => Gravar(t, t.linhas[p].(ativo := false))
  }

  /** The result a service call hands back for a save outcome. */
  function Devolvido(g: Result<Gravacao, ErroCategoria>): Result<Categoria, ErroCategoria>
  {
    match g
    case Ok(v) => Ok(v.salvo)
    case Err(e) => Err(e)
  }

  /** In a valid table the row with a given id is the only one with it. */
  lemma IdUnico(t: Tabela, i: int, j: int)
    requires Valida(t) && 0 <= i < |t.linhas| && 0 <= j < |t.linhas|
    requires t.linhas[i].id == t.linhas[j].id
    ensures i == j
  {
  }

  /** Every successful save keeps the table valid. */
  lemma GravarPreservaValida(t: Tabela, c: Categoria)
    requires Valida(t) && Gravar(t, c).Ok?
    ensures Valida(Gravar(t, c).value.tabela)
  {
    var n := Gravar(t, c).value.tabela;
    if c.id.Some? {
      var p := Posicao(t.linhas, c.id.value).value;
      assert n.linhas == t.linhas[p := c];
      forall i, j | 0 <= i < j < |n.linhas|
        ensures n.linhas[i].nome != n.linhas[j].nome
      {
        if i == p {
          assert !OutraComNome(t.linhas, p, c.nome);
          assert t.linhas[j].nome != c.nome;
        } else if j == p {
          assert !OutraComNome(t.linhas, p, c.nome);
          assert t.linhas[i].nome != c.nome;
        }
      }
    } else {
      forall i | 0 <= i < |t.linhas|
        ensures t.linhas[i].nome != c.nome
      {
        assert !OutraComNome(t.linhas, -1, c.nome);
      }
    }
  }

  /**
   * salvar checks nothing but the name: with a non-blank name its outcome
   * is the repository's, so a new category whose name is taken fails only
   * as a save error, never as a validation error.
   */
  lemma SalvarSoChecaNome(t: Tabela, c: Categoria)
    ensures EmBranco(c.nome) <==> PassoSalvar(t, c) == Err(NomeObrigatorio)
    ensures !EmBranco(c.nome) ==> PassoSalvar(t, c) == Gravar(t, c)
    ensures !EmBranco(c.nome) && c.id.None? ==>
      (PassoSalvar(t, c) == Err(FalhaAoSalvar) <==> exists i :: 0 <= i < |t.linhas| && t.linhas[i].nome == c.nome)
  {
    if !EmBranco(c.nome) && c.id.None? && exists i :: 0 <= i < |t.linhas| && t.linhas[i].nome == c.nome {
      var i :| 0 <= i < |t.linhas| && t.linhas[i].nome == c.nome;
      assert OutraComNome(t.linhas, -1, c.nome);
    }
  }

  /**
   * A new category with a fresh, non-blank name is appended at the end
   * under an id no stored row has.
   */
  lemma SalvarNova(t: Tabela, c: Categoria)
    requires Valida(t) && c.id.None? && !EmBranco(c.nome)
    requires forall i :: 0 <= i < |t.linhas| ==> t.linhas[i].nome != c.nome
    ensures PassoSalvar(t, c).Ok?
    ensures var g := PassoSalvar(t, c).value;
      && g.salvo == c.(id := Some(t.proximoId))
      && g.tabela.linhas == t.linhas + [g.salvo]
      && (forall i :: 0 <= i < |t.linhas| ==> t.linhas[i].id != g.salvo.id)
  {
  }

  /**
   * atualizar refuses a missing id and does no name check: a stored row can
   * be replaced by one with a blank name.
   */
  lemma AtualizarSemValidacao(t: Tabela, c: Categoria, p: int)
    requires Valida(t) && 0 <= p < |t.linhas| && c.id == t.linhas[p].id
    requires forall j :: 0 <= j < |t.linhas| && j != p ==> t.linhas[j].nome != c.nome
    ensures PassoAtualizar(t, c) == Ok(Gravacao(Tabela(t.linhas[p := c], t.proximoId), c))
    ensures PassoAtualizar(t, c.(id := None)) == Err(IdNuloNaAtualizacao)
  {
    var q := Posicao(t.linhas, c.id.value).value;
    IdUnico(t, p, q);
  }

  /**
   * desativar succeeds exactly for a stored id; then that row, and only
   * that row, has ativo cleared, every other field stays, and no id is
   * handed out.
   */
  lemma DesativarEfeito(t: Tabela, id: int)
    requires Valida(t)
    ensures PassoDesativar(t, id).Ok? <==> exists i :: 0 <= i < |t.linhas| && t.linhas[i].id == Some(id)
    ensures PassoDesativar(t, id).Err? ==> PassoDesativar(t, id).error == NaoEncontrada
    ensures PassoDesativar(t, id).Ok? ==>
      var n := PassoDesativar(t, id).value.tabela;
      && n.proximoId == t.proximoId && |n.linhas| == |t.linhas|
      && (forall i :: 0 <= i < |t.linhas| ==>
            n.linhas[i] == if t.linhas[i].id == Some(id) then t.linhas[i].(ativo := false) else t.linhas[i])
  {
    match Posicao(t.linhas, id)
    case None =>
    case Some(p) =>
      var c := t.linhas[p].(ativo := false);
      assert !OutraComNome(t.linhas, p, c.nome);
      forall i | 0 <= i < |t.linhas| && t.linhas[i].id == Some(id)
        ensures i == p
      {
        IdUnico(t, i, p);
      }
  }

  /** Deactivating twice leaves the same table as deactivating once. */
  lemma DesativarIdempotente(t: Tabela, id: int)
    requires Valida(t) && PassoDesativar(t, id).Ok?
    ensures var n := PassoDesativar(t, id).value.tabela;
      PassoDesativar(n, id).Ok? && PassoDesativar(n, id).value.tabela == n
  {
    var n := PassoDesativar(t, id).value.tabela;
    DesativarEfeito(t, id);
    GravarPreservaValida(t, t.linhas[Posicao(t.linhas, id).value].(ativo := false));
    DesativarEfeito(n, id);
    assert PassoDesativar(n, id).value.tabela.linhas == n.linhas;
  }

  class CategoriaService {
    var linhas: seq<Categoria>
    var proximoId: int

    function Estado(): Tabela
      reads this
    {
      Tabela(linhas, proximoId)
    }

    ghost predicate Valid()
      reads this
    {
      Valida(Estado())
    }

    /** The repository took on the table of a successful outcome, or kept its own. */
    twostate predicate Aplicou(g: Result<Gravacao, ErroCategoria>)
      reads this
    {
      if g.Ok? then Estado() == g.value.tabela else Estado() == old(Estado())
    }

    constructor ()
      ensures Valid() && linhas == [] && proximoId == 1
    {
      linhas := [];
      proximoId := 1;
    }

    /** The repository's save. */
    method Save(c: Categoria) returns (r: Result<Categoria, ErroCategoria>)
      requires Valid()
      modifies this
      ensures Valid()
      ensures Aplicou(old(Gravar(Estado(), c)))
      ensures r == Devolvido(old(Gravar(Estado(), c)))
    {
      ghost var t := Estado();
      if c.id.None? {
        if OutraComNome(linhas, -1, c.nome) {
          return Err(FalhaAoSalvar);
        }
        var nova := c.(id := Some(proximoId));
        linhas := linhas + [nova];
        proximoId := proximoId + 1;
        r := Ok(nova);
      } else {
        var p := Posicao(linhas, c.id.value);
        if p.None? || OutraComNome(linhas, p.value, c.nome) {
          return Err(FalhaAoSalvar);
        }
        linhas := linhas[p.value := c];
        r := Ok(c);
      }
      GravarPreservaValida(t, c);
    }

    method Salvar(c: Categoria) returns (r: Result<Categoria, ErroCategoria>)
      requires Valid()
      modifies this
      ensures Valid()
      ensures Aplicou(old(PassoSalvar(Estado(), c)))
      ensures r == Devolvido(old(PassoSalvar(Estado(), c)))
    {
      if EmBranco(c.nome) {
        return Err(NomeObrigatorio);
      }
      r := Save(c);
    }

    method Atualizar(c: Categoria) returns (r: Result<Categoria, ErroCategoria>)
      requires Valid()
      modifies this
      ensures Valid()
      ensures Aplicou(old(PassoAtualizar(Estado(), c)))
      ensures r == Devolvido(old(PassoAtualizar(Estado(), c)))
    {
      if c.id.None? {
        return Err(IdNuloNaAtualizacao);
      }
      r := Save(c);
    }

    method Desativar(id: int) returns (r: Outcome<ErroCategoria>)
      requires Valid()
      modifies this
      ensures Valid()
      ensures Aplicou(old(PassoDesativar(Estado(), id)))
      ensures r.Pass? <==> old(PassoDesativar(Estado(), id)).Ok?
      ensures r.Fail? ==> r.error == NaoEncontrada
    {
      ghost var t := Estado();
      DesativarEfeito(t, id);
      var p := Posicao(linhas, id);
      if p.None? {
        return Fail(NaoEncontrada);
      }
      var c := linhas[p.value].(ativo := false);
      var s := Save(c);
      assert s.Ok?;
      r := Pass;
    }
  }
}
