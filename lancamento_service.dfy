/**
 * `LancamentoService`: registration, settlement and cancellation of entries over
 * the repository (look up, run the state machine, stage, commit), the realized
 * balance of a period, and the projections of entries into `LancamentoDto`.
 */
module LancamentoServico {
  import opened Wrappers
  import opened Calendar
  import opened Lancamentos
  import opened LancamentoRepositorio
  import opened RepositorioGenerico
  import opened Cadastros
  import opened Somas

  /** The arguments of `RegistrarAsync`. */
  datatype CriarLancamentoDto = CriarLancamentoDto(
    descricao: string,
    valor: int,
    dataVencimento: DateTime,
    tipo: TipoTransacao,
    formaPagamento: FormaPagamento,
    categoriaId: int,
    centroCustoId: int,
    usuarioId: int,
    observacao: Option<string>,
    fielId: Option<int>,
    fornecedorId: Option<int>)

  /** The arguments of `BaixarAsync`. */
  datatype BaixarLancamentoDto = BaixarLancamentoDto(
    lancamentoId: int,
    valorPago: int,
    dataPagamento: DateTime,
    formaPagamento: FormaPagamento)

  /** The entry as the screens see it. */
  datatype LancamentoDto = LancamentoDto(
    id: int,
    descricao: string,
    valorOriginal: int,
    valorPago: Option<int>,
    dataVencimento: DateTime,
    dataPagamento: Option<DateTime>,
    tipo: TipoTransacao,
    status: StatusLancamento,
    observacao: Option<string>,
    categoriaId: int,
    centroCustoId: int,
    fielId: Option<int>,
    fornecedorId: Option<int>,
    categoriaNome: string,
    centroCustoNome: string,
    pessoaNome: Option<string>,
    filtrarPorDataPagamento: bool,
    formaPagamento: FormaPagamento)

  /**
   * The names the `Include`d navigations load, by id: category and cost-center
   * `Nome`, `Fiel.Nome` and `Fornecedor.NomeFantasia`. A missing id is a null navigation.
   */
  datatype Navegacoes = Navegacoes(
    categorias: map<int, string>,
    centrosCusto: map<int, string>,
    fieis: map<int, string>,
    fornecedores: map<int, string>)

  /** `x?.Nome ?? padrao` for an optional reference. */
  function NomeOu(nomes: map<int, string>, id: Option<int>, padrao: string): (r: string)
    ensures id.Some? && id.value in nomes ==> r == nomes[id.value]
    ensures !(id.Some? && id.value in nomes) ==> r == padrao
  {
    if id.Some? && id.value in nomes then nomes[id.value] else padrao
  }

  /** The `Select` of `ObterTodosAsync` for one entry. */
  function ProjetarLista(l: LancamentoData, n: Navegacoes): (d: LancamentoDto)
    ensures d.id == l.id && d.descricao == l.descricao && d.valorOriginal == l.valorOriginal
    ensures d.valorPago == Some(l.valorPago)
    ensures d.dataVencimento == l.dataVencimento && d.dataPagamento == l.dataPagamento
    ensures d.tipo == l.tipo && d.status == l.status && d.observacao == l.observacao
    ensures d.categoriaId == l.categoriaId && d.centroCustoId == l.centroCustoId
    ensures d.fielId == l.fielId && d.fornecedorId == l.fornecedorId
    ensures d.categoriaNome == NomeOu(n.categorias, Some(l.categoriaId), "N/A")
    ensures d.centroCustoNome == NomeOu(n.centrosCusto, Some(l.centroCustoId), "N/A")
    ensures l.tipo == Receita ==> d.pessoaNome == Some(NomeOu(n.fieis, l.fielId, "Anônimo"))
    ensures l.tipo == Despesa ==> d.pessoaNome == Some(NomeOu(n.fornecedores, l.fornecedorId, "Diversos"))
  {
    LancamentoDto(
      l.id, l.descricao, l.valorOriginal, Some(l.valorPago), l.dataVencimento, l.dataPagamento,
      l.tipo, l.status, l.observacao, l.categoriaId, l.centroCustoId, l.fielId, l.fornecedorId,
      NomeOu(n.categorias, Some(l.categoriaId), "N/A"),
      NomeOu(n.centrosCusto, Some(l.centroCustoId), "N/A"),
      Some(if l.tipo == Receita then NomeOu(n.fieis, l.fielId, "Anônimo")
           else NomeOu(n.fornecedores, l.fornecedorId, "Diversos")),
      false, Padrao)
  }

  /** `ObterTodosAsync`: one DTO per entry due in the range, in the repository's order. */
  function ObterTodos(ls: seq<LancamentoData>, inicio: DateTime, fim: DateTime, n: Navegacoes): (r: seq<LancamentoDto>)
    ensures |r| == |PorPeriodo(ls, inicio, fim)|
    ensures forall i :: 0 <= i < |r| ==> r[i] == ProjetarLista(PorPeriodo(ls, inicio, fim)[i], n)
  {
    var p := PorPeriodo(ls, inicio, fim);
    seq(|p|, i requires 0 <= i < |p| => ProjetarLista(p[i], n))
  }

  /** Every listed DTO has a due date in the range, listed in due-date order, and shows a paid amount. */
  lemma ObterTodosNoPeriodo(ls: seq<LancamentoData>, inicio: DateTime, fim: DateTime, n: Navegacoes)
    ensures forall i :: 0 <= i < |ObterTodos(ls, inicio, fim, n)| ==>
      NoPeriodo(ObterTodos(ls, inicio, fim, n)[i].dataVencimento, inicio, fim)
      && ObterTodos(ls, inicio, fim, n)[i].valorPago.Some?
    ensures forall i, j :: 0 <= i < j < |ObterTodos(ls, inicio, fim, n)| ==>
      Le(ObterTodos(ls, inicio, fim, n)[i].dataVencimento, ObterTodos(ls, inicio, fim, n)[j].dataVencimento)
  {
    var p := PorPeriodo(ls, inicio, fim);
    forall i | 0 <= i < |p| ensures NoPeriodo(p[i].dataVencimento, inicio, fim) {
      assert p[i] in p;
    }
  }

  /** `ObterPorIdAsync`: null for an unknown id; names default to the empty string. */
  function ObterPorId(ls: seq<LancamentoData>, id: int, n: Navegacoes): (r: Option<LancamentoDto>)
    ensures r.None? <==> PorId(ls, id).None?
    ensures r.Some? ==> var l := PorId(ls, id).value;
      r.value.id == l.id == id && r.value.descricao == l.descricao && r.value.valorOriginal == l.valorOriginal
      && r.value.valorPago == Some(l.valorPago) && r.value.dataVencimento == l.dataVencimento
      && r.value.dataPagamento == l.dataPagamento && r.value.tipo == l.tipo && r.value.status == l.status
      && r.value.observacao == l.observacao && r.value.categoriaId == l.categoriaId
      && r.value.centroCustoId == l.centroCustoId && r.value.fielId == l.fielId
      && r.value.fornecedorId == l.fornecedorId
      && r.value.categoriaNome == NomeOu(n.categorias, Some(l.categoriaId), "")
      && r.value.centroCustoNome == NomeOu(n.centrosCusto, Some(l.centroCustoId), "")
      && r.value.pessoaNome == None
  {
    match PorId(ls, id)
    case None => None
    case Some(l) =>
      Some(LancamentoDto(
        l.id, l.descricao, l.valorOriginal, Some(l.valorPago), l.dataVencimento, l.dataPagamento,
        l.tipo, l.status, l.observacao, l.categoriaId, l.centroCustoId, l.fielId, l.fornecedorId,
        NomeOu(n.categorias, Some(l.categoriaId), ""),
        NomeOu(n.centrosCusto, Some(l.centroCustoId), ""),
        None, false, Padrao))
  }

  /** `ObterSaldoPeriodoAsync`: realized income minus realized expense of the range. */
  function ObterSaldoPeriodo(ls: seq<LancamentoData>, inicio: DateTime, fim: DateTime): int {
    TotalRealizado(ls, inicio, fim, Receita) - TotalRealizado(ls, inicio, fim, Despesa)
  }

  /** A row's signed realized amount: income counts up, expense down. */
  function ParcelaAssinada(l: LancamentoData, inicio: DateTime, fim: DateTime): int {
    if l.status == Pago && l.dataPagamento.Some? && NoPeriodo(l.dataPagamento.value, inicio, fim)
    then (if l.tipo == Receita then l.valorPago else -l.valorPago)
    else 0
  }

  /** The balance is the signed sum of the paid amounts of the rows paid in the range. */
  lemma {:induction false} SaldoPeriodoAssinado(ls: seq<LancamentoData>, inicio: DateTime, fim: DateTime)
    ensures ObterSaldoPeriodo(ls, inicio, fim) == Soma(ls, l => ParcelaAssinada(l, inicio, fim))
    decreases |ls|
  {
    if ls != [] {
      SaldoPeriodoAssinado(ls[..|ls| - 1], inicio, fim);
    }
  }

  /** Settling a pending row adds its paid amount to the realized total of its type, if paid in the range. */
  lemma BaixaNoRealizado(ls: seq<LancamentoData>, k: int, v: int, d: DateTime,
                         inicio: DateTime, fim: DateTime, tipo: TipoTransacao)
    requires 0 <= k < |ls| && ls[k].status == Pendente
    ensures Baixa(ls[k], v, d).Ok?
    ensures TotalRealizado(ls[k := Baixa(ls[k], v, d).value], inicio, fim, tipo)
         == TotalRealizado(ls, inicio, fim, tipo) + (if NoPeriodo(d, inicio, fim) && ls[k].tipo == tipo then v else 0)
    ensures TotalPrevisto(ls[k := Baixa(ls[k], v, d).value], inicio, fim, tipo) == TotalPrevisto(ls, inicio, fim, tipo)
  {
    var n := Baixa(ls[k], v, d).value;
    SomaSubstituir(ls, k, n, l => ParcelaRealizada(l, inicio, fim, tipo));
    SomaSubstituir(ls, k, n, l => ParcelaPrevista(l, inicio, fim, tipo));
  }

  /** Cancelling a row takes its original amount out of the forecast of its type, if due in the range. */
  lemma CancelamentoNoPrevisto(ls: seq<LancamentoData>, k: int, inicio: DateTime, fim: DateTime, tipo: TipoTransacao)
    requires 0 <= k < |ls| && ls[k].status == Pendente
    ensures Cancelamento(ls[k]).Ok?
    ensures TotalPrevisto(ls[k := Cancelamento(ls[k]).value], inicio, fim, tipo)
         == TotalPrevisto(ls, inicio, fim, tipo) - ParcelaPrevista(ls[k], inicio, fim, tipo)
    ensures TotalRealizado(ls[k := Cancelamento(ls[k]).value], inicio, fim, tipo) == TotalRealizado(ls, inicio, fim, tipo)
  {
    var n := Cancelamento(ls[k]).value;
    SomaSubstituir(ls, k, n, l => ParcelaRealizada(l, inicio, fim, tipo));
    SomaSubstituir(ls, k, n, l => ParcelaPrevista(l, inicio, fim, tipo));
  }

  /** The service's errors: its own lookups and checks, or the entry's. */
  datatype ErroServico =
    | CategoriaNaoEncontrada
    | CategoriaIncompativel
    | LancamentoNaoEncontrado
    | Dominio(erro: Erro)

  /** Writing one staged insertion always succeeds and appends the row under the next id. */
  lemma GravarInsercao(ls: seq<LancamentoData>, p: int, l: LancamentoData)
    ensures Gravar(ls, p, [Insercao(l)]) == Ok((ls + [l.(id := p)], p + 1))
  {
    assert [Insercao(l)][1..] == [];
  }

  /** Writing one staged update of an existing row replaces that row. */
  lemma GravarAtualizacao(ls: seq<LancamentoData>, p: int, l: LancamentoData)
    requires exists i :: 0 <= i < |ls| && ls[i].id == l.id
    ensures Gravar(ls, p, [Atualizacao(l)]) == Ok((ls[IndicePorId(ls, l.id) := l], p))
  {
    assert [Atualizacao(l)][1..] == [];
  }

  /**
   * What `RegistrarAsync` does to the table: the error it raises, or the id of
   * the one Pendente row it appends, with the table and identity counter after it.
   */
  function EfeitoRegistro(cats: seq<Registro<Categoria>>, ls: seq<LancamentoData>, proximoId: int,
                          dto: CriarLancamentoDto): (r: (Result<int, ErroServico>, seq<LancamentoData>, int))
    ensures r.0 == Err(CategoriaNaoEncontrada) <==> BuscarPorId(cats, dto.categoriaId).None?
    ensures r.0 == Err(CategoriaIncompativel) <==>
      BuscarPorId(cats, dto.categoriaId).Some? && BuscarPorId(cats, dto.categoriaId).value.dados.tipo != dto.tipo
    ensures r.0.Ok? <==>
      BuscarPorId(cats, dto.categoriaId).Some? && BuscarPorId(cats, dto.categoriaId).value.dados.tipo == dto.tipo
      && Validar(dto.descricao, dto.valor, dto.categoriaId, dto.centroCustoId) == Pass
    ensures r.0.Err? ==> r.1 == ls && r.2 == proximoId
    ensures r.0.Ok? ==> r.0.value == proximoId && r.2 == proximoId + 1 && |r.1| == |ls| + 1 && r.1[..|ls|] == ls
    ensures r.0.Ok? ==> var n := r.1[|ls|];
      n.id == proximoId && n.status == Pendente && n.valorPago == 0 && n.dataPagamento == None
      && n.descricao == dto.descricao && n.valorOriginal == dto.valor && n.dataVencimento == dto.dataVencimento
      && n.tipo == dto.tipo && n.categoriaId == dto.categoriaId && n.centroCustoId == dto.centroCustoId
      && n.usuarioId == dto.usuarioId && n.fielId == dto.fielId && n.fornecedorId == dto.fornecedorId
      && n.formaPagamento == Padrao && n.observacao == None && Consistente(n)
  {
    var categoria := BuscarPorId(cats, dto.categoriaId);
    if categoria.None? then (Err(CategoriaNaoEncontrada), ls, proximoId)
    else if categoria.value.dados.tipo != dto.tipo then (Err(CategoriaIncompativel), ls, proximoId)
    else match Validar(dto.descricao, dto.valor, dto.categoriaId, dto.centroCustoId)
      case Fail(e) => (Err(Dominio(e)), ls, proximoId)
      case Pass =>
        var n := Novo(dto.descricao, dto.valor, dto.dataVencimento, dto.tipo, dto.categoriaId,
                      dto.centroCustoId, dto.usuarioId, dto.fielId, dto.fornecedorId).(id := proximoId);
        assert (ls + [n])[..|ls|] == ls;
        (Ok(proximoId), ls + [n], proximoId + 1)
  }

  /**
   * What `BaixarAsync` does to the table: an unknown id or a cancelled entry is an
   * error and changes nothing; otherwise exactly that row is settled.
   */
  function EfeitoBaixa(ls: seq<LancamentoData>, dto: BaixarLancamentoDto): (r: (Outcome<ErroServico>, seq<LancamentoData>))
    ensures PorId(ls, dto.lancamentoId).None? ==> r == (Fail(LancamentoNaoEncontrado), ls)
    ensures PorId(ls, dto.lancamentoId).Some? && PorId(ls, dto.lancamentoId).value.status == Cancelado ==>
      r == (Fail(Dominio(BaixaDeCancelado)), ls)
    ensures r.0.Pass? <==> PorId(ls, dto.lancamentoId).Some? && PorId(ls, dto.lancamentoId).value.status != Cancelado
    ensures r.0.Pass? ==> var k := IndicePorId(ls, dto.lancamentoId);
      |r.1| == |ls| && r.1[k] == Baixa(ls[k], dto.valorPago, dto.dataPagamento).value
      && (forall i :: 0 <= i < |ls| && i != k ==> r.1[i] == ls[i])
      && r.1[k].status == Pago && r.1[k].valorPago == dto.valorPago && r.1[k].dataPagamento == Some(dto.dataPagamento)
  {
    match PorId(ls, dto.lancamentoId)
    case None => (Fail(LancamentoNaoEncontrado), ls)
    case Some(l) =>
      match Baixa(l, dto.valorPago, dto.dataPagamento)
      case Err(e) => (Fail(Dominio(e)), ls)
      case Ok(n) => (Pass, ls[IndicePorId(ls, dto.lancamentoId) := n])
  }

  /**
   * What `CancelarAsync` does to the table: an unknown id or a paid entry is an
   * error and changes nothing (a paid entry stays paid); otherwise exactly that row is cancelled.
   */
  function EfeitoCancelamento(ls: seq<LancamentoData>, id: int): (r: (Outcome<ErroServico>, seq<LancamentoData>))
    ensures PorId(ls, id).None? ==> r == (Fail(LancamentoNaoEncontrado), ls)
    ensures PorId(ls, id).Some? && PorId(ls, id).value.status == Pago ==> r == (Fail(Dominio(CancelamentoDePago)), ls)
    ensures r.0.Pass? <==> PorId(ls, id).Some? && PorId(ls, id).value.status != Pago
    ensures r.0.Pass? ==> var k := IndicePorId(ls, id);
      |r.1| == |ls| && r.1[k] == ls[k].(status := Cancelado)
      && (forall i :: 0 <= i < |ls| && i != k ==> r.1[i] == ls[i])
  {
    match PorId(ls, id)
    case None => (Fail(LancamentoNaoEncontrado), ls)
    case Some(l) =>
      match Cancelamento(l)
      case Err(e) => (Fail(Dominio(e)), ls)
      case Ok(n) => (Pass, ls[IndicePorId(ls, id) := n])
  }

  class LancamentoService {
    var repositorio: LancamentoRepository
    var categorias: Repository<Categoria>

    /** Every service call leaves nothing staged. */
    predicate Valid()
      reads this, repositorio, categorias
    {
      repositorio.Valid() && categorias.Valid() && repositorio.pendentes == []
    }

    constructor (repositorio: LancamentoRepository, categorias: Repository<Categoria>)
      requires repositorio.Valid() && categorias.Valid() && repositorio.pendentes == []
      ensures this.repositorio == repositorio && this.categorias == categorias && Valid()
    {
      this.repositorio := repositorio;
      this.categorias := categorias;
    }

    /**
     * `RegistrarAsync`: the category must exist (inactive ones included) and have
     * the entry's type; the entry is built, inserted and committed, and its new id
     * returned. The dto's payment method and note are not copied.
     */
    method RegistrarAsync(dto: CriarLancamentoDto) returns (r: Result<int, ErroServico>)
      requires Valid()
      modifies repositorio
      ensures Valid()
      ensures (r, repositorio.linhas, repositorio.proximoId)
           == EfeitoRegistro(categorias.registros, old(repositorio.linhas), old(repositorio.proximoId), dto)
    {
      var categoria := categorias.GetById(dto.categoriaId);
      if categoria.None? {
        return Err(CategoriaNaoEncontrada);
      }
      if categoria.value.dados.tipo != dto.tipo {
        return Err(CategoriaIncompativel);
      }
      var criado := Lancamento.Criar(dto.descricao, dto.valor, dto.dataVencimento, dto.tipo, dto.categoriaId,
                                     dto.centroCustoId, dto.usuarioId, dto.fielId, dto.fornecedorId);
      if criado.Err? {
        return Err(Dominio(criado.error));
      }
      var lancamento := criado.value;
      var novoId := repositorio.proximoId;
      repositorio.Adicionar(lancamento);
      GravarInsercao(repositorio.linhas, repositorio.proximoId, lancamento.Dados());
      var gravou := repositorio.Commit();
      // SaveChanges writes the generated key back into the tracked entity
      lancamento.id := novoId;
      return Ok(lancamento.id);
    }

    /** `BaixarAsync`: settles the stored entry; the dto's payment method is ignored. */
    method BaixarAsync(dto: BaixarLancamentoDto) returns (o: Outcome<ErroServico>)
      requires Valid()
      modifies repositorio
      ensures Valid()
      ensures repositorio.proximoId == old(repositorio.proximoId)
      ensures (o, repositorio.linhas) == EfeitoBaixa(old(repositorio.linhas), dto)
    {
      var encontrado := repositorio.ObterPorId(dto.lancamentoId);
      if encontrado.None? {
        return Fail(LancamentoNaoEncontrado);
      }
      var lancamento := new Lancamento.FromDados(encontrado.value);
      var baixa := lancamento.Baixar(dto.valorPago, dto.dataPagamento);
      if baixa.Fail? {
        return Fail(Dominio(baixa.error));
      }
      repositorio.Atualizar(lancamento);
      GravarAtualizacao(repositorio.linhas, repositorio.proximoId, lancamento.Dados());
      var gravou := repositorio.Commit();
      return Pass;
    }

    /** `CancelarAsync`: cancels the stored entry; a paid one is refused and stays paid. */
    method CancelarAsync(id: int) returns (o: Outcome<ErroServico>)
      requires Valid()
      modifies repositorio
      ensures Valid()
      ensures repositorio.proximoId == old(repositorio.proximoId)
      ensures (o, repositorio.linhas) == EfeitoCancelamento(old(repositorio.linhas), id)
    {
      var encontrado := repositorio.ObterPorId(id);
      if encontrado.None? {
        return Fail(LancamentoNaoEncontrado);
      }
      var lancamento := new Lancamento.FromDados(encontrado.value);
      var cancelamento := lancamento.Cancelar();
      if cancelamento.Fail? {
        return Fail(Dominio(cancelamento.error));
      }
      repositorio.Atualizar(lancamento);
      GravarAtualizacao(repositorio.linhas, repositorio.proximoId, lancamento.Dados());
      var gravou := repositorio.Commit();
      return Pass;
    }
  }
}
