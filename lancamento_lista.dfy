/**
 * `LancamentoListaViewModel`: the entry list screen. It keeps the filter, loads
 * the listing of the period and accumulates its forecast and realized balances,
 * enables the footer buttons by the selected entry's status, and settles or
 * cancels the selected entry through the service before reloading.
 */
module ListaLancamentos {
  import opened Wrappers
  import opened Calendar
  import opened Somas
  import opened Lancamentos
  import opened LancamentoRepositorio
  import opened LancamentoServico
  import opened Cadastros
  import opened RepositorioGenerico
  import Ordering

  /** The filter the screen sends to `GerarRelatorioAsync`. */
  datatype FiltroRelatorio = FiltroRelatorio(
    dataInicio: DateTime,
    dataFim: DateTime,
    centroCustoId: Option<int>,
    apenasPagos: bool,
    incluirCancelados: bool)

  /** The cost-center choice "TODOS" (id 0) is sent as no filter at all. */
  function CentroCustoDoFiltro(escolhido: Option<int>): (r: Option<int>)
    ensures r.None? <==> escolhido == None || escolhido == Some(0)
    ensures r.Some? ==> r == escolhido && r.value != 0
  {
    if escolhido == Some(0) then None else escolhido
  }

  /** What an item has been settled for: its paid amount if present, else all of it when paid, else nothing. */
  function ValorBaixado(d: LancamentoDto): int {
    d.valorPago.GetOr(if d.status == Pago then d.valorOriginal else 0)
  }

  /** An item's share of the forecast of a type; cancelled items are left out. */
  function PrevistoItem(d: LancamentoDto, tipo: TipoTransacao): int {
    if d.status != Cancelado && d.tipo == tipo then d.valorOriginal else 0
  }

  /** An item's share of the realized amount of a type; cancelled items are left out. */
  function RealizadoItem(d: LancamentoDto, tipo: TipoTransacao): int {
    if d.status != Cancelado && d.tipo == tipo then ValorBaixado(d) else 0
  }

  function SomaPrevista(ds: seq<LancamentoDto>, tipo: TipoTransacao): int {
    Soma(ds, d => PrevistoItem(d, tipo))
  }

  function SomaRealizada(ds: seq<LancamentoDto>, tipo: TipoTransacao): int {
    Soma(ds, d => RealizadoItem(d, tipo))
  }

  /** `SaldoPrevisto`: forecast income minus forecast expense of the listed items. */
  function SaldoPrevistoDe(ds: seq<LancamentoDto>): int {
    SomaPrevista(ds, Receita) - SomaPrevista(ds, Despesa)
  }

  /** `SaldoRealizado`: realized income minus realized expense of the listed items. */
  function SaldoRealizadoDe(ds: seq<LancamentoDto>): int {
    SomaRealizada(ds, Receita) - SomaRealizada(ds, Despesa)
  }

  /** An item's signed forecast: income up, expense down, cancelled nothing. */
  function PrevistoAssinado(d: LancamentoDto): int {
    if d.status == Cancelado then 0 else if d.tipo == Receita then d.valorOriginal else -d.valorOriginal
  }

  /** An item's signed realized amount: income up, expense down, cancelled nothing. */
  function RealizadoAssinado(d: LancamentoDto): int {
    if d.status == Cancelado then 0 else if d.tipo == Receita then ValorBaixado(d) else -ValorBaixado(d)
  }

  /** Each balance is the sum of the items' signed amounts, so cancelled items weigh nothing in either. */
  lemma SaldosAssinados(ds: seq<LancamentoDto>)
    ensures SaldoPrevistoDe(ds) == Soma(ds, PrevistoAssinado)
    ensures SaldoRealizadoDe(ds) == Soma(ds, RealizadoAssinado)
  {
    SomaDiferenca(ds, d => PrevistoItem(d, Receita), d => PrevistoItem(d, Despesa), PrevistoAssinado);
    SomaDiferenca(ds, d => RealizadoItem(d, Receita), d => RealizadoItem(d, Despesa), RealizadoAssinado);
  }

  predicate NaoCancelado(d: LancamentoDto) {
    d.status != Cancelado
  }

  /** Removing cancelled items from the listing changes neither balance. */
  lemma CanceladosNaoContam(ds: seq<LancamentoDto>)
    ensures SaldoPrevistoDe(Filtrar(ds, NaoCancelado)) == SaldoPrevistoDe(ds)
    ensures SaldoRealizadoDe(Filtrar(ds, NaoCancelado)) == SaldoRealizadoDe(ds)
  {
    SaldosAssinados(ds);
    SaldosAssinados(Filtrar(ds, NaoCancelado));
    SomaFiltrada(ds, NaoCancelado, PrevistoAssinado, PrevistoAssinado);
    SomaFiltrada(ds, NaoCancelado, RealizadoAssinado, RealizadoAssinado);
  }

  /**
   * Fed with the listing of `ObterTodosAsync`, the screen's forecast balance is the
   * repository's forecast of income minus its forecast of expense for the period.
   */
  lemma SaldoPrevistoDoRepositorio(ls: seq<LancamentoData>, inicio: DateTime, fim: DateTime, n: Navegacoes)
    ensures SaldoPrevistoDe(ObterTodos(ls, inicio, fim, n))
         == TotalPrevisto(ls, inicio, fim, Receita) - TotalPrevisto(ls, inicio, fim, Despesa)
  {
    PrevistaDoRepositorio(ls, inicio, fim, n, Receita);
    PrevistaDoRepositorio(ls, inicio, fim, n, Despesa);
  }

  lemma PrevistaDoRepositorio(ls: seq<LancamentoData>, inicio: DateTime, fim: DateTime, n: Navegacoes, tipo: TipoTransacao)
    ensures SomaPrevista(ObterTodos(ls, inicio, fim, n), tipo) == TotalPrevisto(ls, inicio, fim, tipo)
  {
    var p := PorPeriodo(ls, inicio, fim);
    var ds := ObterTodos(ls, inicio, fim, n);
    forall i | 0 <= i < |ds| ensures PrevistoItem(ds[i], tipo) == ParcelaPrevista(p[i], inicio, fim, tipo) {
      assert p[i] in p;
    }
    SomaCorrespondente(ds, p, d => PrevistoItem(d, tipo), l => ParcelaPrevista(l, inicio, fim, tipo));
    TotalPrevistoPorPeriodo(ls, inicio, fim, tipo);
  }

  /** `BaixarCommand`'s CanExecute: a selected pending item. */
  predicate PodeBaixar(sel: Option<LancamentoDto>) {
    sel.Some? && sel.value.status == Pendente
  }

  /** `EstornarCommand`'s CanExecute: a selected paid item. */
  predicate PodeEstornar(sel: Option<LancamentoDto>) {
    sel.Some? && sel.value.status == Pago
  }

  /** `CancelarCommand`'s CanExecute: a selected item not yet cancelled. */
  predicate PodeCancelar(sel: Option<LancamentoDto>) {
    sel.Some? && sel.value.status != Cancelado
  }

  /**
   * Settling and reversing are never enabled together, and cancelling is enabled
   * exactly when one of them is; nothing is enabled without a selection or for a
   * cancelled item.
   */
  lemma Botoes(sel: Option<LancamentoDto>)
    ensures !(PodeBaixar(sel) && PodeEstornar(sel))
    ensures PodeCancelar(sel) <==> PodeBaixar(sel) || PodeEstornar(sel)
    ensures sel.None? || sel.value.status == Cancelado ==> !PodeBaixar(sel) && !PodeEstornar(sel) && !PodeCancelar(sel)
  {
  }

  /** The dto `BaixarLancamento` sends: the item's whole original amount, paid now. */
  function DtoBaixa(sel: LancamentoDto, agora: DateTime): (dto: BaixarLancamentoDto)
    ensures dto.lancamentoId == sel.id && dto.valorPago == sel.valorOriginal && dto.dataPagamento == agora
  {
    BaixarLancamentoDto(sel.id, sel.valorOriginal, agora, Padrao)
  }

  /**
   * With `PodeBaixar` true for an item read from the table, the settlement succeeds
   * and the row is paid in full; with `PodeCancelar` true for a paid item, the
   * cancellation is enabled but the entry refuses it.
   */
  lemma BotoesNaTabela(ls: seq<LancamentoData>, sel: LancamentoDto, agora: DateTime)
    requires PorId(ls, sel.id).Some? && PorId(ls, sel.id).value.status == sel.status
    ensures PodeBaixar(Some(sel)) ==>
      EfeitoBaixa(ls, DtoBaixa(sel, agora)).0 == Pass
      && EfeitoBaixa(ls, DtoBaixa(sel, agora)).1[IndicePorId(ls, sel.id)].valorPago == sel.valorOriginal
    ensures PodeCancelar(Some(sel)) && sel.status == Pago ==>
      EfeitoCancelamento(ls, sel.id) == (Fail(Dominio(CancelamentoDePago)), ls)
  {
  }

  /** The first entry of the cost-center combo box, "TODOS" with id 0, created at `agora`. */
  function CentroCustoTodos(agora: DateTime): (c: Registro<CentroCusto>)
    ensures c.id == 0 && c.dados.nome == "TODOS" && c.ativo
  {
    Registro(0, agora, None, true, CentroCusto("TODOS", ""))
  }

  class LancamentoListaViewModel {
    var servico: LancamentoService
    const centroCustoRepository: Repository<CentroCusto>
    var centrosCusto: seq<Registro<CentroCusto>>
    var listaLancamentos: seq<LancamentoDto>
    var saldoPrevisto: int
    var saldoRealizado: int
    var filtroDataInicio: DateTime
    var filtroDataFim: DateTime
    var filtroCentroCustoId: Option<int>
    var filtroApenasPagos: bool
    var filtroIncluirCancelados: bool
    var lancamentoSelecionado: Option<LancamentoDto>

    /** The filter `CarregarDados` builds from the screen's fields. */
    function Filtro(): (f: FiltroRelatorio)
      reads this
      ensures f.dataInicio == filtroDataInicio && f.dataFim == filtroDataFim
      ensures f.centroCustoId == CentroCustoDoFiltro(filtroCentroCustoId)
      ensures f.apenasPagos == filtroApenasPagos && f.incluirCancelados == filtroIncluirCancelados
    {
      FiltroRelatorio(filtroDataInicio, filtroDataFim, CentroCustoDoFiltro(filtroCentroCustoId),
                      filtroApenasPagos, filtroIncluirCancelados)
    }

    /**
     * The constructor: dates from the saved settings (or the current month), both
     * check boxes off, nothing selected; then `CarregarListasAuxiliares` and
     * `CarregarDados`. `salvas` is what the settings hold, None when reading them
     * throws; `hoje` is `DateTime.Today` and `agora` is `DateTime.Now`; `gerar` is the
     * report query. The listing asked for has no cost-center filter: the "TODOS"
     * choice sends none.
     */
    constructor (servico: LancamentoService, centroCustoRepository: Repository<CentroCusto>,
                 salvas: Option<(DateTime, DateTime)>, hoje: DateTime, agora: DateTime,
                 gerar: FiltroRelatorio -> Option<seq<LancamentoDto>>)
      requires IsValid(hoje) && !(hoje.year == 9999 && hoje.month == 12)
      ensures this.servico == servico && this.centroCustoRepository == centroCustoRepository
      ensures DatasIniciais(salvas, hoje, filtroDataInicio, filtroDataFim)
      ensures !filtroApenasPagos && !filtroIncluirCancelados && lancamentoSelecionado == None
      ensures centrosCusto == [CentroCustoTodos(agora)] + Ordering.SortBy(centroCustoRepository.GetAll(), NomeCentroCusto)
      ensures filtroCentroCustoId == Some(0)
      ensures Filtro() == FiltroRelatorio(filtroDataInicio, filtroDataFim, None, false, false)
      ensures gerar(Filtro()).None? ==> listaLancamentos == [] && saldoPrevisto == 0 && saldoRealizado == 0
      ensures gerar(Filtro()).Some? ==>
        listaLancamentos == gerar(Filtro()).value
        && saldoPrevisto == SaldoPrevistoDe(listaLancamentos) && saldoRealizado == SaldoRealizadoDe(listaLancamentos)
    {
      this.servico := servico;
      this.centroCustoRepository := centroCustoRepository;
      centrosCusto := [];
      listaLancamentos := [];
      saldoPrevisto := 0;
      saldoRealizado := 0;
      filtroCentroCustoId := None;
      filtroApenasPagos := false;
      filtroIncluirCancelados := false;
      lancamentoSelecionado := None;
      filtroDataInicio := hoje;
      filtroDataFim := hoje;
      new;
      InicializarDatas(salvas, hoje);
      CarregarListasAuxiliares(agora);
      CarregarDados(gerar);
    }

    /**
     * `CarregarListasAuxiliares`: the cost-center list becomes "TODOS" followed by the
     * cost centers in name order, and "TODOS" is chosen.
     */
    method CarregarListasAuxiliares(agora: DateTime)
      modifies this
      ensures centrosCusto == [CentroCustoTodos(agora)] + Ordering.SortBy(centroCustoRepository.GetAll(), NomeCentroCusto)
      ensures filtroCentroCustoId == Some(0) && CentroCustoDoFiltro(filtroCentroCustoId) == CentroCustoDoFiltro(None)
      ensures filtroDataInicio == old(filtroDataInicio) && filtroDataFim == old(filtroDataFim)
      ensures filtroApenasPagos == old(filtroApenasPagos) && filtroIncluirCancelados == old(filtroIncluirCancelados)
      ensures servico == old(servico) && listaLancamentos == old(listaLancamentos)
      ensures saldoPrevisto == old(saldoPrevisto) && saldoRealizado == old(saldoRealizado)
      ensures lancamentoSelecionado == old(lancamentoSelecionado)
    {
      var custos := centroCustoRepository.GetAll();
      centrosCusto := [CentroCustoTodos(agora)] + Ordering.SortBy(custos, NomeCentroCusto);
      filtroCentroCustoId := Some(0);
      assert centroCustoRepository.GetAll() == custos;
    }

    /**
     * `InicializarDatas`: the saved range, unless the saved start is before 2000 (never
     * saved) or the settings cannot be read; then the first through the last day
     * of the current month.
     */
    method InicializarDatas(salvas: Option<(DateTime, DateTime)>, hoje: DateTime)
      requires IsValid(hoje) && !(hoje.year == 9999 && hoje.month == 12)
      modifies this
      ensures DatasIniciais(salvas, hoje, filtroDataInicio, filtroDataFim)
      ensures servico == old(servico) && listaLancamentos == old(listaLancamentos)
      ensures saldoPrevisto == old(saldoPrevisto) && saldoRealizado == old(saldoRealizado)
      ensures filtroCentroCustoId == old(filtroCentroCustoId) && lancamentoSelecionado == old(lancamentoSelecionado)
      ensures filtroApenasPagos == old(filtroApenasPagos) && filtroIncluirCancelados == old(filtroIncluirCancelados)
      ensures centrosCusto == old(centrosCusto)
    {
      if salvas.Some? && salvas.value.0.year >= 2000 {
        filtroDataInicio := salvas.value.0;
        filtroDataFim := salvas.value.1;
      } else {
        MonthRange(hoje);
        filtroDataInicio := FirstOfMonth(hoje);
        filtroDataFim := PreviousDay(AddOneMonth(filtroDataInicio).value).value;
      }
    }

    /**
     * `CarregarDados`: clears the list, asks for the listing of the current filter
     * (`gerar` is the report query; None when it throws), appends every item in order,
     * cancelled ones included, and sets both balances from the non-cancelled ones.
     * When the query throws the list stays empty and the balances keep their values.
     */
    method CarregarDados(gerar: FiltroRelatorio -> Option<seq<LancamentoDto>>)
      modifies this
      ensures gerar(old(Filtro())).None? ==>
        listaLancamentos == [] && saldoPrevisto == old(saldoPrevisto) && saldoRealizado == old(saldoRealizado)
      ensures gerar(old(Filtro())).Some? ==>
        listaLancamentos == gerar(old(Filtro())).value
        && saldoPrevisto == SaldoPrevistoDe(listaLancamentos)
        && saldoRealizado == SaldoRealizadoDe(listaLancamentos)
      ensures Filtro() == old(Filtro()) && servico == old(servico)
      ensures filtroCentroCustoId == old(filtroCentroCustoId) && lancamentoSelecionado == old(lancamentoSelecionado)
      ensures centrosCusto == old(centrosCusto)
    {
      listaLancamentos := [];
      var dados := gerar(Filtro());
      if dados.None? {
        return;
      }
      var itens := dados.value;
      var receitaPrev, despesaPrev, receitaReal, despesaReal := 0, 0, 0, 0;
      var i := 0;
      while i < |itens|
        invariant 0 <= i <= |itens|
        invariant listaLancamentos == itens[..i]
        invariant receitaPrev == SomaPrevista(itens[..i], Receita)
        invariant despesaPrev == SomaPrevista(itens[..i], Despesa)
        invariant receitaReal == SomaRealizada(itens[..i], Receita)
        invariant despesaReal == SomaRealizada(itens[..i], Despesa)
        invariant Filtro() == old(Filtro()) && servico == old(servico)
        invariant filtroCentroCustoId == old(filtroCentroCustoId) && lancamentoSelecionado == old(lancamentoSelecionado)
        invariant centrosCusto == old(centrosCusto)
      {
        var item := itens[i];
        assert itens[..i + 1][..i] == itens[..i];
        listaLancamentos := listaLancamentos + [item];
        if item.status != Cancelado {
          if item.tipo == Receita {
            receitaPrev := receitaPrev + item.valorOriginal;
          } else {
            despesaPrev := despesaPrev + item.valorOriginal;
          }
          var valorBaixado := item.valorPago.GetOr(if item.status == Pago then item.valorOriginal else 0);
          if item.tipo == Receita {
            receitaReal := receitaReal + valorBaixado;
          } else {
            despesaReal := despesaReal + valorBaixado;
          }
        }
        i := i + 1;
      }
      assert itens[..i] == itens;
      saldoPrevisto := receitaPrev - despesaPrev;
      saldoRealizado := receitaReal - despesaReal;
    }

    /**
     * `BaixarLancamento`: without a selection, or when the user declines, nothing
     * happens. Otherwise the selected item is settled for its original amount at
     * `agora`; a refusal is shown and nothing is reloaded, a success reloads the list.
     */
    method BaixarLancamento(confirmado: bool, agora: DateTime, gerar: FiltroRelatorio -> Option<seq<LancamentoDto>>)
      returns (o: Option<Outcome<ErroServico>>)
      requires servico.Valid()
      modifies this, servico.repositorio
      ensures servico == old(servico) && servico.Valid()
      ensures old(lancamentoSelecionado).None? || !confirmado ==>
        o == None && servico.repositorio.linhas == old(servico.repositorio.linhas)
        && listaLancamentos == old(listaLancamentos)
      ensures old(lancamentoSelecionado).Some? && confirmado ==>
        var efeito := EfeitoBaixa(old(servico.repositorio.linhas), DtoBaixa(old(lancamentoSelecionado).value, agora));
        o == Some(efeito.0) && servico.repositorio.linhas == efeito.1
        && (efeito.0.Fail? ==>
              listaLancamentos == old(listaLancamentos)
              && saldoPrevisto == old(saldoPrevisto) && saldoRealizado == old(saldoRealizado))
        && (efeito.0.Pass? && gerar(old(Filtro())).Some? ==>
              listaLancamentos == gerar(old(Filtro())).value
              && saldoPrevisto == SaldoPrevistoDe(listaLancamentos)
              && saldoRealizado == SaldoRealizadoDe(listaLancamentos))
        && (efeito.0.Pass? && gerar(old(Filtro())).None? ==>
              listaLancamentos == []
              && saldoPrevisto == old(saldoPrevisto) && saldoRealizado == old(saldoRealizado))
      ensures old(lancamentoSelecionado).None? || !confirmado ==>
        saldoPrevisto == old(saldoPrevisto) && saldoRealizado == old(saldoRealizado)
      ensures Filtro() == old(Filtro()) && filtroCentroCustoId == old(filtroCentroCustoId)
      ensures lancamentoSelecionado == old(lancamentoSelecionado) && centrosCusto == old(centrosCusto)
    {
      if lancamentoSelecionado.None? || !confirmado {
        return None;
      }
      var dto := DtoBaixa(lancamentoSelecionado.value, agora);
      var r := servico.BaixarAsync(dto);
      o := Some(r);
      if r.Pass? {
        CarregarDados(gerar);
      }
    }

    /**
     * `Cancelar(id)`: when the user confirms, the service cancels the entry; a
     * refusal is shown and nothing is reloaded, a success reloads the list.
     */
    method Cancelar(id: int, confirmado: bool, gerar: FiltroRelatorio -> Option<seq<LancamentoDto>>)
      returns (o: Option<Outcome<ErroServico>>)
      requires servico.Valid()
      modifies this, servico.repositorio
      ensures servico == old(servico) && servico.Valid()
      ensures !confirmado ==>
        o == None && servico.repositorio.linhas == old(servico.repositorio.linhas)
        && listaLancamentos == old(listaLancamentos)
      ensures confirmado ==>
        var efeito := EfeitoCancelamento(old(servico.repositorio.linhas), id);
        o == Some(efeito.0) && servico.repositorio.linhas == efeito.1
        && (efeito.0.Fail? ==>
              listaLancamentos == old(listaLancamentos)
              && saldoPrevisto == old(saldoPrevisto) && saldoRealizado == old(saldoRealizado))
        && (efeito.0.Pass? && gerar(old(Filtro())).Some? ==>
              listaLancamentos == gerar(old(Filtro())).value
              && saldoPrevisto == SaldoPrevistoDe(listaLancamentos)
              && saldoRealizado == SaldoRealizadoDe(listaLancamentos))
        && (efeito.0.Pass? && gerar(old(Filtro())).None? ==>
              listaLancamentos == []
              && saldoPrevisto == old(saldoPrevisto) && saldoRealizado == old(saldoRealizado))
      ensures !confirmado ==> saldoPrevisto == old(saldoPrevisto) && saldoRealizado == old(saldoRealizado)
      ensures Filtro() == old(Filtro()) && filtroCentroCustoId == old(filtroCentroCustoId)
      ensures lancamentoSelecionado == old(lancamentoSelecionado) && centrosCusto == old(centrosCusto)
    {
      if !confirmado {
        return None;
      }
      var r := servico.CancelarAsync(id);
      o := Some(r);
      if r.Pass? {
        CarregarDados(gerar);
      }
    }
  }

  /**
   * The range `InicializarDatas` leaves: the saved one when its start is in 2000 or
   * later, else the current month from its first to its last day.
   */
  predicate DatasIniciais(salvas: Option<(DateTime, DateTime)>, hoje: DateTime, inicio: DateTime, fim: DateTime)
    requires IsValid(hoje)
  {
    if salvas.Some? && salvas.value.0.year >= 2000 then inicio == salvas.value.0 && fim == salvas.value.1
    else inicio == FirstOfMonth(hoje) && fim == LastOfMonth(hoje)
  }

  /** The default range holds every day of the current month and nothing else of it is cut off. */
  lemma MesCorrente(hoje: DateTime, inicio: DateTime, fim: DateTime)
    requires IsValid(hoje) && !(hoje.year == 9999 && hoje.month == 12)
    requires DatasIniciais(None, hoje, inicio, fim)
    ensures inicio.day == 1 && fim.day == DaysInMonth(hoje.year, hoje.month)
    ensures forall x: DateTime :: IsValid(x) && x.year == hoje.year && x.month == hoje.month ==>
      NoPeriodo(DateOf(x), inicio, fim)
  {
    MonthRange(hoje);
    forall x: DateTime | IsValid(x) && x.year == hoje.year && x.month == hoje.month
      ensures NoPeriodo(DateOf(x), inicio, fim)
    {
      assert IsValid(DateOf(x)) && DateOf(x).year == hoje.year && DateOf(x).month == hoje.month;
    }
  }

  /** The default range ends at midnight of the month's last day: a moment of the
      current month is in it exactly when it falls before the last day or at that
      day's midnight, so an entry due later on the last day is left out. */
  lemma MesCorrenteTerminaMeiaNoite(hoje: DateTime, inicio: DateTime, fim: DateTime, x: DateTime)
    requires IsValid(hoje) && DatasIniciais(None, hoje, inicio, fim)
    requires IsValid(x) && x.year == hoje.year && x.month == hoje.month
    ensures NoPeriodo(x, inicio, fim) <==> x.day < DaysInMonth(hoje.year, hoje.month) || x.ticks == 0
  {
  }
}
