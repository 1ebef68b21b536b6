/**
 * `LancamentoCadastroViewModel`: the form that registers one entry. It keeps the
 * categories of the chosen type on offer, checks amount and description before
 * calling the service, and registers the entry under user 1.
 */
module LancamentoCadastro {
  import opened Wrappers
  import opened Text
  import opened Calendar
  import opened Somas
  import opened Lancamentos
  import opened Cadastros
  import opened RepositorioGenerico
  import opened LancamentoServico

  /** The type a form selection stands for. */
  function TipoSelecionado(isReceita: bool): (r: TipoTransacao)
    ensures r == Receita <==> isReceita
  {
    if isReceita then Receita else Despesa
  }

  /** `c => c.Tipo == tipo`. */
  function EDoTipo(tipo: TipoTransacao): Registro<Categoria> -> bool {
    (c: Registro<Categoria>) => c.dados.tipo == tipo
  }

  /** `Where(c => c.Tipo == tipo)`: the categories of one type, in their order. */
  function DoTipo(cats: seq<Registro<Categoria>>, tipo: TipoTransacao): (r: seq<Registro<Categoria>>)
    ensures forall c :: c in r <==> c in cats && c.dados.tipo == tipo
  {
    Filtrar(cats, EDoTipo(tipo))
  }

  lemma DoTipoPasso(cats: seq<Registro<Categoria>>, i: int, tipo: TipoTransacao)
    requires 0 <= i < |cats|
    ensures DoTipo(cats[..i + 1], tipo) == DoTipo(cats[..i], tipo) + (if cats[i].dados.tipo == tipo then [cats[i]] else [])
  {
    FiltrarPasso(cats, i, EDoTipo(tipo));
  }

  /**
   * The two selections split the cached categories: whichever type is chosen, the
   * categories on offer and those of the other type hold each cached category
   * exactly as often as the cache does.
   */
  lemma DoTipoParticao(cats: seq<Registro<Categoria>>)
    ensures multiset(DoTipo(cats, Receita)) + multiset(DoTipo(cats, Despesa)) == multiset(cats)
  {
    FiltrarParticao(cats, EDoTipo(Receita), EDoTipo(Despesa));
  }

  /** The form's own checks before saving: amount first, then description. */
  datatype Aviso = ValorNaoPositivo | DescricaoVazia

  function PreValidacao(dto: CriarLancamentoDto): (r: Outcome<Aviso>)
    ensures r == Fail(ValorNaoPositivo) <==> dto.valor <= 0
    ensures r == Fail(DescricaoVazia) <==> dto.valor > 0 && IsBlank(dto.descricao)
    ensures r == Pass <==> dto.valor > 0 && !IsBlank(dto.descricao)
  {
    if dto.valor <= 0 then Fail(ValorNaoPositivo)
    else if IsBlank(dto.descricao) then Fail(DescricaoVazia)
    else Pass
  }

  /**
   * The form rejects only what the entry itself would reject: a dto the form
   * stops fails the entry's own validation too, and one it lets through can fail
   * there only on its category or cost-center id. The two report in different
   * orders: for a blank description and a non-positive amount the form names the
   * amount and the entry the description.
   */
  lemma PreValidacaoDominio(dto: CriarLancamentoDto)
    ensures PreValidacao(dto).Fail? ==> Validar(dto.descricao, dto.valor, dto.categoriaId, dto.centroCustoId).Fail?
    ensures PreValidacao(dto).Pass? ==>
      Validar(dto.descricao, dto.valor, dto.categoriaId, dto.centroCustoId) in {Pass, Fail(CategoriaInvalida), Fail(CentroCustoInvalido)}
    ensures dto.valor <= 0 && IsBlank(dto.descricao) ==>
      PreValidacao(dto) == Fail(ValorNaoPositivo)
      && Validar(dto.descricao, dto.valor, dto.categoriaId, dto.centroCustoId) == Fail(DescricaoObrigatoria)
  {
  }

  /** How a save ends: stopped by the form, registered under an id, or rejected by the service. */
  datatype ResultadoCadastro =
    | Recusado(aviso: Aviso)
    | Registrado(id: int)
    | Rejeitado(erro: ErroServico)

  /** The dto the form starts with: an expense due today, every other field at its default. */
  function DtoInicial(hoje: DateTime): (r: CriarLancamentoDto)
    ensures r.tipo == Despesa && r.dataVencimento == hoje && r.valor == 0 && r.descricao == ""
  {
    CriarLancamentoDto("", 0, hoje, Despesa, Padrao, 0, 0, 0, None, None, None)
  }

  class LancamentoCadastroViewModel {
    const servico: LancamentoService
    const centroCustoRepositorio: Repository<CentroCusto>
    const categoriaRepositorio: Repository<Categoria>

    var dto: CriarLancamentoDto
    var isReceita: bool
    var isDespesa: bool
    var todasCategorias: seq<Registro<Categoria>>
    var categoriasFiltradas: seq<Registro<Categoria>>
    var centrosCusto: seq<Registro<CentroCusto>>

    /** The categories the form should offer. */
    predicate FiltroEmDia()
      reads this
    {
      categoriasFiltradas == DoTipo(todasCategorias, TipoSelecionado(isReceita))
    }

    /**
     * The constructor: an expense due today. `IsReceita = false` leaves the field
     * as it was, so it does not refilter; then `CarregarListasAsync` fills the cost
     * centers and the category cache and filters the expense categories.
     */
    constructor (servico: LancamentoService, centroCustoRepositorio: Repository<CentroCusto>,
                 categoriaRepositorio: Repository<Categoria>, hoje: DateTime)
      ensures this.servico == servico && this.centroCustoRepositorio == centroCustoRepositorio
      ensures this.categoriaRepositorio == categoriaRepositorio
      ensures dto == DtoInicial(hoje) && !isReceita && isDespesa
      ensures centrosCusto == centroCustoRepositorio.GetAll() && todasCategorias == categoriaRepositorio.GetAll()
      ensures categoriasFiltradas == DoTipo(todasCategorias, Despesa) && FiltroEmDia()
    {
      this.servico := servico;
      this.centroCustoRepositorio := centroCustoRepositorio;
      this.categoriaRepositorio := categoriaRepositorio;
      dto := DtoInicial(hoje);
      isDespesa := true;
      isReceita := false;
      todasCategorias := [];
      categoriasFiltradas := [];
      centrosCusto := [];
      new;
      CarregarListas();
    }

    /** `FiltrarCategorias`: the cached categories of the selected type, in cache order. */
    method FiltrarCategorias()
      modifies this
      ensures categoriasFiltradas == DoTipo(todasCategorias, TipoSelecionado(isReceita)) && FiltroEmDia()
      ensures dto == old(dto) && isReceita == old(isReceita) && isDespesa == old(isDespesa)
      ensures todasCategorias == old(todasCategorias) && centrosCusto == old(centrosCusto)
    {
      var tipoAlvo := TipoSelecionado(isReceita);
      var cats := todasCategorias;
      var filtradas := [];
      for i := 0 to |cats|
        invariant filtradas == DoTipo(cats[..i], tipoAlvo)
        invariant unchanged(this)
      {
        DoTipoPasso(cats, i, tipoAlvo);
        if cats[i].dados.tipo == tipoAlvo {
          filtradas := filtradas + [cats[i]];
        }
      }
      assert cats[..|cats|] == cats;
      categoriasFiltradas := filtradas;
    }

    /**
     * The `IsReceita` setter: a new value sets the dto's type to match, the expense
     * flag to its negation, and refilters; the same value changes nothing.
     */
    method SetIsReceita(valor: bool)
      modifies this
      ensures isReceita == valor
      ensures old(isReceita) != valor ==>
        dto == old(dto).(tipo := TipoSelecionado(valor)) && isDespesa == !valor && FiltroEmDia()
      ensures old(isReceita) == valor ==>
        dto == old(dto) && isDespesa == old(isDespesa) && categoriasFiltradas == old(categoriasFiltradas)
      ensures todasCategorias == old(todasCategorias) && centrosCusto == old(centrosCusto)
    {
      if isReceita != valor {
        isReceita := valor;
        dto := dto.(tipo := TipoSelecionado(valor));
        isDespesa := !valor;
        FiltrarCategorias();
      }
    }

    /**
     * `CarregarListasAsync`: appends the active cost centers, caches the active
     * categories and refilters.
     */
    method CarregarListas()
      modifies this
      ensures centrosCusto == old(centrosCusto) + centroCustoRepositorio.GetAll()
      ensures todasCategorias == categoriaRepositorio.GetAll() && FiltroEmDia()
      ensures dto == old(dto) && isReceita == old(isReceita) && isDespesa == old(isDespesa)
    {
      var custos := centroCustoRepositorio.GetAll();
      centrosCusto := centrosCusto + custos;
      var cats := categoriaRepositorio.GetAll();
      todasCategorias := cats;
      FiltrarCategorias();
      assert centroCustoRepositorio.GetAll() == custos && categoriaRepositorio.GetAll() == cats;
    }

    /**
     * `SalvarAsync`: a non-positive amount or a blank description stops the save
     * with no service call; otherwise the user id becomes 1 and the dto is registered.
     */
    method SalvarAsync() returns (r: ResultadoCadastro)
      requires servico.Valid()
      modifies this, servico.repositorio
      ensures servico.Valid()
      ensures PreValidacao(old(dto)).Fail? ==>
        r == Recusado(PreValidacao(old(dto)).error) && dto == old(dto)
        && servico.repositorio.linhas == old(servico.repositorio.linhas)
        && servico.repositorio.proximoId == old(servico.repositorio.proximoId)
      ensures PreValidacao(old(dto)).Pass? ==>
        var e := EfeitoRegistro(servico.categorias.registros, old(servico.repositorio.linhas),
                                old(servico.repositorio.proximoId), old(dto).(usuarioId := 1));
        dto == old(dto).(usuarioId := 1) && servico.repositorio.linhas == e.1 && servico.repositorio.proximoId == e.2
        && r == (if e.0.Ok? then Registrado(e.0.value) else Rejeitado(e.0.error))
      ensures isReceita == old(isReceita) && categoriasFiltradas == old(categoriasFiltradas)
    {
      var aviso := PreValidacao(dto);
      if aviso.Fail? {
        return Recusado(aviso.error);
      }
      dto := dto.(usuarioId := 1);
      var registro := servico.RegistrarAsync(dto);
      if registro.Ok? {
        r := Registrado(registro.value);
      } else {
        r := Rejeitado(registro.error);
      }
    }
  }

  /**
   * A save the form lets through registers, when the service accepts it, a
   * Pendente entry under user 1 with the form's description, amount, due date and type.
   */
  lemma SalvarRegistraUsuario1(cats: seq<Registro<Categoria>>, ls: seq<LancamentoData>, p: int, dto: CriarLancamentoDto)
    requires PreValidacao(dto).Pass?
    ensures var e := EfeitoRegistro(cats, ls, p, dto.(usuarioId := 1));
      e.0.Ok? ==> (e.1[|ls|].usuarioId == 1 && e.1[|ls|].status == Pendente && e.1[|ls|].descricao == dto.descricao
                   && e.1[|ls|].valorOriginal == dto.valor && e.1[|ls|].dataVencimento == dto.dataVencimento
                   && e.1[|ls|].tipo == dto.tipo)
    ensures var e := EfeitoRegistro(cats, ls, p, dto.(usuarioId := 1));
      e.0.Err? ==> e.0.error != Dominio(DescricaoObrigatoria) && e.0.error != Dominio(ValorInvalido)
  {
    var d := dto.(usuarioId := 1);
    var e := EfeitoRegistro(cats, ls, p, d);
    PreValidacaoDominio(dto);
    if e.0.Err? && e.0.error.Dominio? {
      assert Validar(d.descricao, d.valor, d.categoriaId, d.centroCustoId) == Fail(e.0.error.erro);
    }
  }
}
