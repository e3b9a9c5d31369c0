/** The parts of Usuario that the core reads: its profile and whether it is an administrator. */
module Usuarios {
  import opened Wrappers

  /** Usuario.TipoPerfil. */
  datatype TipoPerfil = ADMINISTRADOR | OPERADOR | GERENTE

  datatype Usuario = Usuario(id: Option<int>, username: string, nome: string, perfil: TipoPerfil, ativo: bool)
  {
    /** Usuario.isAdmin(). */
    predicate IsAdmin()
    {
      perfil == ADMINISTRADOR
    }
  }
}
