/**
 * SessaoService: the user logged in at this terminal and the role check
 * the screens ask before opening restricted functions.
 */
module ServicoSessao {
  import opened Wrappers
  import opened Usuarios

  class SessaoService {
    /** usuarioLogado; None when nobody is logged in. */
    var usuarioLogado: Option<Usuario>

    constructor()
      ensures usuarioLogado == None
    {
      usuarioLogado := None;
    }

    method SetUsuarioLogado(usuario: Option<Usuario>)
      modifies this`usuarioLogado
      ensures usuarioLogado == usuario
    {
      usuarioLogado := usuario;
    }

    method GetUsuarioLogado() returns (usuario: Option<Usuario>)
      ensures usuario == usuarioLogado
    {
      usuario := usuarioLogado;
    }

    /**
     * temPermissao(perfisPermitidos...): nobody logged in is never
     * permitted, an administrator always is, and anybody else exactly when
     * their profile is among the ones given.
     */
    method TemPermissao(perfisPermitidos: seq<TipoPerfil>) returns (r: bool)
      ensures usuarioLogado.None? ==> !r
      ensures usuarioLogado.Some? && usuarioLogado.value.IsAdmin() ==> r
      ensures usuarioLogado.Some? && !usuarioLogado.value.IsAdmin() ==>
        (r <==> usuarioLogado.value.perfil in perfisPermitidos)
    {
      if usuarioLogado.None? {
        return false;
      }
      if usuarioLogado.value.IsAdmin() {
        return true;
      }
      var i := 0;
      while i < |perfisPermitidos|
        invariant 0 <= i <= |perfisPermitidos|
        invariant usuarioLogado.value.perfil !in perfisPermitidos[..i]
      {
        if usuarioLogado.value.perfil == perfisPermitidos[i] {
          return true;
        }
        i := i + 1;
      }
      assert perfisPermitidos[..i] == perfisPermitidos;
      return false;
    }

    /** logout(): afterwards nobody is logged in, so every role check fails. */
    method Logout()
      modifies this`usuarioLogado
      ensures usuarioLogado == None
    {
      usuarioLogado := None;
    }
  }
}
