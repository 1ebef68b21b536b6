/** The registration entities the entry core refers to by id. */
module Cadastros {
  import opened Lancamentos
  import Text
  import RepositorioGenerico

  /** `CategoriaFinanceira`: a named category of one transaction type. */
  datatype Categoria = Categoria(nome: string, tipo: TipoTransacao, dedutivelIR: bool)

  /** `CentroCusto`: a named cost center. */
  datatype CentroCusto = CentroCusto(nome: string, descricao: string)

  /** The key of `OrderBy(x => x.Nome)` over cost centers: the name, compared ordinally. */
  function NomeCentroCusto(c: RepositorioGenerico.Registro<CentroCusto>): seq<int> {
    Text.OrdinalKey(c.dados.nome)
  }
}
