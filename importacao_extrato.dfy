/**
 * `ImportacaoExtratoViewModel`: the import screen. It splits the categories into
 * the income and expense lists the user picks the defaults from, loads the
 * transactions read from a statement, and registers one entry per transaction.
 */
module ImportacaoExtrato {
  import opened Wrappers
  import opened Text
  import opened Calendar
  import Ordering
  import opened Somas
  import opened Lancamentos
  import opened Cadastros
  import opened RepositorioGenerico
  import opened LancamentoServico
  import opened Extrato

  // ---------------------------------------------------------------------------
  // Categories by type, each list in name order
  // ---------------------------------------------------------------------------

  function NomeCategoria(c: Registro<Categoria>): seq<int> {
    OrdinalKey(c.dados.nome)
  }

  predicate DeReceita(c: Registro<Categoria>) {
    c.dados.tipo == Receita
  }

  predicate DeDespesa(c: Registro<Categoria>) {
    c.dados.tipo != Receita
  }

  /** Keeping some elements of a sorted sequence leaves it sorted. */
  lemma {:induction false} FiltrarOrdenado<T(!new)>(xs: seq<T>, p: T -> bool, key: T -> seq<int>)
    requires Ordering.SortedBy(xs, key)
    ensures Ordering.SortedBy(Filtrar(xs, p), key)
    decreases |xs|
  {
    if xs != [] {
      var ys := xs[..|xs| - 1];
      var x := xs[|xs| - 1];
      assert Ordering.SortedBy(ys, key) by {
        forall i, j | 0 <= i < j < |ys| ensures Ordering.LexLe(key(ys[i]), key(ys[j])) {
          assert ys[i] == xs[i] && ys[j] == xs[j];
        }
      }
      FiltrarOrdenado(ys, p, key);
      var f := Filtrar(ys, p);
      forall i | 0 <= i < |f| ensures Ordering.LexLe(key(f[i]), key(x)) {
        assert f[i] in ys;
        var k :| 0 <= k < |ys| && ys[k] == f[i];
        assert xs[k] == f[i];
      }
    }
  }

  /** `cats.OrderBy(x => x.Nome)`, compared ordinally. */
  function PorNome(cats: seq<Registro<Categoria>>): (r: seq<Registro<Categoria>>)
    ensures multiset(r) == multiset(cats) && Ordering.SortedBy(r, NomeCategoria)
  {
    Ordering.SortBy(cats, NomeCategoria)
  }

  /** The loop of `CarregarDadosIniciais`: income categories to the first list, all others to the second, in order. */
  method SepararPorTipo(ordenadas: seq<Registro<Categoria>>) returns (receita: seq<Registro<Categoria>>, despesa: seq<Registro<Categoria>>)
    ensures receita == Filtrar(ordenadas, DeReceita) && despesa == Filtrar(ordenadas, DeDespesa)
  {
    receita, despesa := [], [];
    for i := 0 to |ordenadas|
      invariant receita == Filtrar(ordenadas[..i], DeReceita)
      invariant despesa == Filtrar(ordenadas[..i], DeDespesa)
    {
      FiltrarPasso(ordenadas, i, DeReceita);
      FiltrarPasso(ordenadas, i, DeDespesa);
      var c := ordenadas[i];
      if c.dados.tipo == Receita {
        receita := receita + [c];
      } else {
        despesa := despesa + [c];
      }
    }
    assert ordenadas[..|ordenadas|] == ordenadas;
  }

  /**
   * The two lists of `CarregarDadosIniciais` split the categories: each income
   * category lands in the first, every other one in the second, each in name order.
   */
  lemma ParticaoCategorias(cats: seq<Registro<Categoria>>)
    ensures multiset(Filtrar(PorNome(cats), DeReceita)) + multiset(Filtrar(PorNome(cats), DeDespesa)) == multiset(cats)
    ensures forall c :: c in Filtrar(PorNome(cats), DeReceita) <==> c in cats && c.dados.tipo == Receita
    ensures forall c :: c in Filtrar(PorNome(cats), DeDespesa) <==> c in cats && c.dados.tipo != Receita
    ensures Ordering.SortedBy(Filtrar(PorNome(cats), DeReceita), NomeCategoria)
    ensures Ordering.SortedBy(Filtrar(PorNome(cats), DeDespesa), NomeCategoria)
  {
    var o := PorNome(cats);
    FiltrarParticao(o, DeReceita, DeDespesa);
    FiltrarOrdenado(o, DeReceita, NomeCategoria);
    FiltrarOrdenado(o, DeDespesa, NomeCategoria);
    assert forall c :: c in o <==> c in cats by {
      forall c ensures c in o <==> c in cats {
        assert c in o <==> c in multiset(o);
        assert c in cats <==> c in multiset(cats);
      }
    }
  }

  // ---------------------------------------------------------------------------
  // From statement transactions to registrations
  // ---------------------------------------------------------------------------

  /** Why an import stopped: a missing default (a null dereference) or a failed registration. */
  datatype ErroImportacao =
    | SemCategoria
    | SemCentroCusto
    | FalhaRegistro(erro: ErroServico)

  /** What `SalvarNoBanco` ends with: not confirmed, all imported, or stopped after `importados`. */
  datatype ResultadoImportacao =
    | NaoConfirmada
    | Importados(quantidade: nat)
    | Interrompida(importados: nat, erro: ErroImportacao)

  const ObservacaoImportacao: string := "Importado Automaticamente via PDF Sicoob"

  /**
   * The registration for one transaction: a credit ('C') is income with the
   * income default category, anything else an expense with the expense default;
   * the history is the description, the amount and date are kept, the payment
   * method is Pix and the user is 1.
   */
  function DtoImportado(t: TransacaoExtrato, receita: Option<Registro<Categoria>>, despesa: Option<Registro<Categoria>>,
                        centro: Option<Registro<CentroCusto>>): (r: Result<CriarLancamentoDto, ErroImportacao>)
    ensures r == Err(SemCategoria) <==> (if t.tipo == 'C' then receita else despesa).None?
    ensures r == Err(SemCentroCusto) <==> (if t.tipo == 'C' then receita else despesa).Some? && centro.None?
    ensures r.Ok? ==> (r.value.tipo == (if t.tipo == 'C' then Receita else Despesa)
      && r.value.categoriaId == (if t.tipo == 'C' then receita else despesa).value.id
      && r.value.centroCustoId == centro.value.id
      && r.value.descricao == t.historico && r.value.valor == t.valor && r.value.dataVencimento == t.data
      && r.value.formaPagamento == Pix && r.value.usuarioId == 1)
  {
    var isReceita := t.tipo == 'C';
    var categoria := if isReceita then receita else despesa;
    if categoria.None? then Err(SemCategoria)
    else if centro.None? then Err(SemCentroCusto)
    else Ok(CriarLancamentoDto(t.historico, t.valor, t.data, if isReceita then Receita else Despesa, Pix,
                               categoria.value.id, centro.value.id, 1, Some(ObservacaoImportacao), None, None))
  }

  /** The state of an import: why it stopped (if it did), how many were registered, the table and the identity counter. */
  datatype EstadoImportacao = EstadoImportacao(erro: Option<ErroImportacao>, importados: nat,
                                               linhas: seq<LancamentoData>, proximoId: int)

  /**
   * The loop of `SalvarNoBanco`: one `RegistrarAsync` per transaction, in order,
   * stopping at the first that throws.
   */
  function Importar(cats: seq<Registro<Categoria>>, ls: seq<LancamentoData>, proximoId: int, ts: seq<TransacaoExtrato>,
                    receita: Option<Registro<Categoria>>, despesa: Option<Registro<Categoria>>,
                    centro: Option<Registro<CentroCusto>>): (r: EstadoImportacao)
    ensures r.importados <= |ts|
    decreases |ts|
  {
    if ts == [] then EstadoImportacao(None, 0, ls, proximoId)
    else match DtoImportado(ts[0], receita, despesa, centro)
      case Err(e) => EstadoImportacao(Some(e), 0, ls, proximoId)
      case Ok(dto) =>
        var (res, ls', p') := EfeitoRegistro(cats, ls, proximoId, dto);
        if res.Err? then EstadoImportacao(Some(FalhaRegistro(res.error)), 0, ls, proximoId)
        else
          var r := Importar(cats, ls', p', ts[1..], receita, despesa, centro);
          r.(importados := r.importados + 1)
  }

  /** The row registered for transaction `t` under id `id`. */
  predicate LinhaImportada(n: LancamentoData, t: TransacaoExtrato, id: int) {
    n.id == id && n.status == Pendente && n.valorPago == 0 && n.dataPagamento.None?
    && n.descricao == t.historico && n.valorOriginal == t.valor && n.dataVencimento == t.data
    && (n.tipo == Receita <==> t.tipo == 'C') && n.usuarioId == 1
  }

  /**
   * What an import adds to the table: the rows already there stay, and one new
   * row per imported transaction follows, in order, each Pendente (though the
   * confirmation text announces them as paid) with the transaction's history,
   * amount and date, income exactly for the credits, under consecutive ids.
   */
  lemma {:induction false} ImportarAcrescenta(cats: seq<Registro<Categoria>>, ls: seq<LancamentoData>, proximoId: int,
                                              ts: seq<TransacaoExtrato>, receita: Option<Registro<Categoria>>,
                                              despesa: Option<Registro<Categoria>>, centro: Option<Registro<CentroCusto>>)
    ensures var r := Importar(cats, ls, proximoId, ts, receita, despesa, centro);
      |r.linhas| == |ls| + r.importados && r.linhas[..|ls|] == ls && r.proximoId == proximoId + r.importados
      && forall i :: 0 <= i < r.importados ==> LinhaImportada(r.linhas[|ls| + i], ts[i], proximoId + i)
    decreases |ts|
  {
    if ts != [] {
      match DtoImportado(ts[0], receita, despesa, centro)
      case Err(e) =>
      case Ok(dto) =>
        var (res, ls', p') := EfeitoRegistro(cats, ls, proximoId, dto);
        if res.Ok? {
          ImportarAcrescenta(cats, ls', p', ts[1..], receita, despesa, centro);
          var r := Importar(cats, ls', p', ts[1..], receita, despesa, centro);
          assert Importar(cats, ls, proximoId, ts, receita, despesa, centro) == r.(importados := r.importados + 1);
          assert r.linhas[..|ls'|] == ls';
          assert r.linhas[..|ls|] == ls'[..|ls|];
          assert LinhaImportada(ls'[|ls|], ts[0], proximoId);
          forall i | 0 <= i < r.importados + 1
            ensures LinhaImportada(r.linhas[|ls| + i], ts[i], proximoId + i)
          {
            if i == 0 {
              assert r.linhas[|ls|] == ls'[|ls|];
            } else {
              assert ts[1..][i - 1] == ts[i];
              assert |ls'| + (i - 1) == |ls| + i;
            }
          }
        }
    }
  }

  /**
   * An import that does not stop registers every transaction: the count shown is
   * the number of transactions. One that stops leaves the rows of the
   * transactions before the failing one in the table.
   */
  lemma {:induction false} ImportarConta(cats: seq<Registro<Categoria>>, ls: seq<LancamentoData>, proximoId: int,
                                         ts: seq<TransacaoExtrato>, receita: Option<Registro<Categoria>>,
                                         despesa: Option<Registro<Categoria>>, centro: Option<Registro<CentroCusto>>)
    ensures var r := Importar(cats, ls, proximoId, ts, receita, despesa, centro);
      (r.erro.None? ==> r.importados == |ts|) && (r.erro.Some? ==> r.importados < |ts|)
    decreases |ts|
  {
    if ts != [] {
      match DtoImportado(ts[0], receita, despesa, centro)
      case Err(e) =>
      case Ok(dto) =>
        var (res, ls', p') := EfeitoRegistro(cats, ls, proximoId, dto);
        if res.Ok? {
          ImportarConta(cats, ls', p', ts[1..], receita, despesa, centro);
        }
    }
  }

  /** With both default categories and a cost center chosen, only a failed registration can stop an import. */
  lemma ImportarComPadroes(cats: seq<Registro<Categoria>>, ls: seq<LancamentoData>, proximoId: int,
                           ts: seq<TransacaoExtrato>, receita: Option<Registro<Categoria>>,
                           despesa: Option<Registro<Categoria>>, centro: Option<Registro<CentroCusto>>)
    requires receita.Some? && despesa.Some? && centro.Some?
    ensures Importar(cats, ls, proximoId, ts, receita, despesa, centro).erro.None?
         || Importar(cats, ls, proximoId, ts, receita, despesa, centro).erro.value.FalhaRegistro?
    decreases |ts|
  {
    if ts != [] {
      var dto := DtoImportado(ts[0], receita, despesa, centro).value;
      var (res, ls', p') := EfeitoRegistro(cats, ls, proximoId, dto);
      if res.Ok? {
        ImportarComPadroes(cats, ls', p', ts[1..], receita, despesa, centro);
      }
    }
  }

  /** `Transacoes.Clear()` and one `Transacoes.Add(item)` per item read, in order. */
  method CopiarTransacoes(itens: seq<TransacaoExtrato>) returns (transacoes: seq<TransacaoExtrato>)
    ensures transacoes == itens
  {
    transacoes := [];
    for i := 0 to |itens|
      invariant transacoes == itens[..i]
    {
      transacoes := transacoes + [itens[i]];
    }
    assert itens[..|itens|] == itens;
  }

  class ImportacaoExtratoViewModel {
    const servico: LancamentoService
    const categoriaRepository: Repository<Categoria>
    const centroCustoRepository: Repository<CentroCusto>

    var transacoes: seq<TransacaoExtrato>
    var categoriasReceita: seq<Registro<Categoria>>
    var categoriasDespesa: seq<Registro<Categoria>>
    var centrosCusto: seq<Registro<CentroCusto>>
    var categoriaReceitaPadrao: Option<Registro<Categoria>>
    var categoriaDespesaPadrao: Option<Registro<Categoria>>
    var centroCustoPadrao: Option<Registro<CentroCusto>>

    /** The constructor: no statement read and no defaults chosen, then the lists loaded by `CarregarDadosIniciais`. */
    constructor (servico: LancamentoService, categoriaRepository: Repository<Categoria>,
                 centroCustoRepository: Repository<CentroCusto>)
      ensures this.servico == servico && this.categoriaRepository == categoriaRepository
      ensures this.centroCustoRepository == centroCustoRepository
      ensures transacoes == []
      ensures categoriasReceita == Filtrar(PorNome(categoriaRepository.GetAll()), DeReceita)
      ensures categoriasDespesa == Filtrar(PorNome(categoriaRepository.GetAll()), DeDespesa)
      ensures centrosCusto == Ordering.SortBy(centroCustoRepository.GetAll(), NomeCentroCusto)
      ensures categoriaReceitaPadrao.None? && categoriaDespesaPadrao.None? && centroCustoPadrao.None?
    {
      this.servico := servico;
      this.categoriaRepository := categoriaRepository;
      this.centroCustoRepository := centroCustoRepository;
      transacoes := [];
      categoriasReceita := [];
      categoriasDespesa := [];
      centrosCusto := [];
      categoriaReceitaPadrao := None;
      categoriaDespesaPadrao := None;
      centroCustoPadrao := None;
      new;
      CarregarDadosIniciais();
    }

    /** The `CanExecute` of `ProcessarCommand`. */
    predicate PodeProcessar()
      reads this
    {
      |transacoes| > 0 && categoriaReceitaPadrao.Some? && categoriaDespesaPadrao.Some? && centroCustoPadrao.Some?
    }

    /**
     * `CarregarDadosIniciais`: the active categories in name order, income ones to
     * the first list and all others to the second; the active cost centers in name order.
     */
    method CarregarDadosIniciais()
      modifies this
      ensures categoriasReceita == Filtrar(PorNome(categoriaRepository.GetAll()), DeReceita)
      ensures categoriasDespesa == Filtrar(PorNome(categoriaRepository.GetAll()), DeDespesa)
      ensures centrosCusto == Ordering.SortBy(centroCustoRepository.GetAll(), NomeCentroCusto)
      ensures transacoes == old(transacoes) && categoriaReceitaPadrao == old(categoriaReceitaPadrao)
      ensures categoriaDespesaPadrao == old(categoriaDespesaPadrao) && centroCustoPadrao == old(centroCustoPadrao)
    {
      var cats := categoriaRepository.GetAll();
      var custos := centroCustoRepository.GetAll();
      var receita, despesa := SepararPorTipo(PorNome(cats));
      categoriasReceita, categoriasDespesa := receita, despesa;
      centrosCusto := Ordering.SortBy(custos, NomeCentroCusto);
      assert categoriaRepository.GetAll() == cats && centroCustoRepository.GetAll() == custos;
    }

    /**
     * `SelecionarArquivo`: when a file was chosen, the transactions read from its
     * pages replace the list, in order.
     */
    method SelecionarArquivo(escolhido: Option<seq<Pagina>>)
      modifies this
      ensures escolhido.None? ==> transacoes == old(transacoes)
      ensures escolhido.Some? ==> transacoes == LerPaginas(escolhido.value, ValorComoEscrito)
      ensures categoriaReceitaPadrao == old(categoriaReceitaPadrao) && categoriaDespesaPadrao == old(categoriaDespesaPadrao)
      ensures centroCustoPadrao == old(centroCustoPadrao)
    {
      if escolhido.Some? {
        var itens := LerArquivo(escolhido.value);
        transacoes := CopiarTransacoes(itens);
      }
    }

    /**
     * `SalvarNoBanco`: after confirmation, one `RegistrarAsync` per transaction in
     * order; the list is cleared only when all of them were registered.
     */
    method SalvarNoBanco(confirmado: bool) returns (r: ResultadoImportacao)
      requires servico.Valid()
      modifies this, servico.repositorio
      ensures servico.Valid() && servico.repositorio == old(servico.repositorio)
      ensures !confirmado ==> (r == NaoConfirmada && transacoes == old(transacoes)
        && servico.repositorio.linhas == old(servico.repositorio.linhas)
        && servico.repositorio.proximoId == old(servico.repositorio.proximoId))
      ensures confirmado ==>
        var e := Importar(servico.categorias.registros, old(servico.repositorio.linhas), old(servico.repositorio.proximoId),
                          old(transacoes), categoriaReceitaPadrao, categoriaDespesaPadrao, centroCustoPadrao);
        servico.repositorio.linhas == e.linhas && servico.repositorio.proximoId == e.proximoId
        && (e.erro.None? ==> r == Importados(e.importados) && transacoes == [])
        && (e.erro.Some? ==> r == Interrompida(e.importados, e.erro.value) && transacoes == old(transacoes))
      ensures categoriaReceitaPadrao == old(categoriaReceitaPadrao) && categoriaDespesaPadrao == old(categoriaDespesaPadrao)
      ensures centroCustoPadrao == old(centroCustoPadrao)
    {
      if !confirmado {
        return NaoConfirmada;
      }
      var cats := servico.categorias.registros;
      ghost var total := Importar(cats, servico.repositorio.linhas, servico.repositorio.proximoId, transacoes,
                                  categoriaReceitaPadrao, categoriaDespesaPadrao, centroCustoPadrao);
      var count := 0;
      while count < |transacoes|
        invariant 0 <= count <= |transacoes|
        invariant servico.Valid() && servico.categorias.registros == cats && transacoes == old(transacoes)
        invariant categoriaReceitaPadrao == old(categoriaReceitaPadrao)
        invariant categoriaDespesaPadrao == old(categoriaDespesaPadrao) && centroCustoPadrao == old(centroCustoPadrao)
        invariant var resto := Importar(cats, servico.repositorio.linhas, servico.repositorio.proximoId, transacoes[count..],
                                        categoriaReceitaPadrao, categoriaDespesaPadrao, centroCustoPadrao);
          total == resto.(importados := resto.importados + count)
        decreases |transacoes| - count
      {
        var t := transacoes[count];
        assert transacoes[count..][0] == t && transacoes[count..][1..] == transacoes[count + 1..];
        var dto := DtoImportado(t, categoriaReceitaPadrao, categoriaDespesaPadrao, centroCustoPadrao);
        if dto.Err? {
          return Interrompida(count, dto.error);
        }
        var registro := servico.RegistrarAsync(dto.value);
        if registro.Err? {
          return Interrompida(count, FalhaRegistro(registro.error));
        }
        count := count + 1;
      }
      assert transacoes[count..] == [];
      transacoes := [];
      return Importados(count);
    }
  }
}
