/**
 * The catalogue records Categoria and Fornecedor. The services replace whole
 * rows, so these are values; a missing id is a row that was never saved.
 */
module Cadastros {
  import opened Wrappers

  datatype Categoria = Categoria(id: Option<int>, nome: string, descricao: string, ativo: bool)

  datatype Fornecedor = Fornecedor(id: Option<int>, nome: string, cnpj: string, telefone: string, email: string, ativo: bool)
}
