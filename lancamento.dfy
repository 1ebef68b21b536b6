/**
 * The financial entry (`Lancamento`) and its state machine: Pendente, Pago and
 * Cancelado. Amounts are `decimal(18,2)` columns, modelled as integer cents.
 *
 * `LancamentoData` is the value of an entry's fields; the pure transitions
 * (`Baixa`, `Estorno`, `Cancelamento`, `Atualizacao`) say what each operation does
 * to that value, and the class `Lancamento` performs them in place.
 */
module Lancamentos {
  import opened Wrappers
  import opened Text
  import opened Calendar

  datatype TipoTransacao = Receita | Despesa

  datatype StatusLancamento = Pendente | Pago | Cancelado

  /**
   * The payment method. Its enum declaration is not part of this model: only `Pix`
   * is referenced by name, and `Padrao` stands for `default(FormaPagamento)`.
   */
  datatype FormaPagamento = Padrao | Pix | Outra(codigo: int)

  /** The exceptions the entry raises, one per guard. */
  datatype Erro =
    | DescricaoObrigatoria
    | ValorInvalido
    | CategoriaInvalida
    | CentroCustoInvalido
    | BaixaDeCancelado
    | EstornoDeNaoPago
    | CancelamentoDePago

  /** The fields of an entry (`BaseEntity.Id` included). */
  datatype LancamentoData = LancamentoData(
    id: int,
    descricao: string,
    valorOriginal: int,
    valorPago: int,
    dataVencimento: DateTime,
    dataPagamento: Option<DateTime>,
    formaPagamento: FormaPagamento,
    observacao: Option<string>,
    tipo: TipoTransacao,
    status: StatusLancamento,
    categoriaId: int,
    centroCustoId: int,
    usuarioId: int,
    fielId: Option<int>,
    fornecedorId: Option<int>)

  /**
   * What every entry reachable through the public operations satisfies: a
   * description, a positive original amount, a payment date exactly when paid,
   * and no paid amount unless paid.
   */
  predicate Consistente(l: LancamentoData) {
    !IsBlank(l.descricao)
    && l.valorOriginal > 0
    && (l.dataPagamento.Some? <==> l.status == Pago)
    && (l.status != Pago ==> l.valorPago == 0)
  }

  /** The guard of the constructor, checked in this order. */
  function Validar(descricao: string, valorOriginal: int, categoriaId: int, centroCustoId: int): (r: Outcome<Erro>)
    ensures r == Pass <==> !IsBlank(descricao) && valorOriginal > 0 && categoriaId > 0 && centroCustoId > 0
    ensures r == Fail(DescricaoObrigatoria) <==> IsBlank(descricao)
    ensures r == Fail(ValorInvalido) <==> !IsBlank(descricao) && valorOriginal <= 0
  {
    if IsBlank(descricao) then Fail(DescricaoObrigatoria)
    else if valorOriginal <= 0 then Fail(ValorInvalido)
    else if categoriaId <= 0 then Fail(CategoriaInvalida)
    else if centroCustoId <= 0 then Fail(CentroCustoInvalido)
    else Pass
  }

  /** The entry the constructor builds, before the store assigns its id. */
  function Novo(descricao: string, valorOriginal: int, dataVencimento: DateTime, tipo: TipoTransacao,
                categoriaId: int, centroCustoId: int, usuarioId: int,
                fielId: Option<int>, fornecedorId: Option<int>): (l: LancamentoData)
    requires Validar(descricao, valorOriginal, categoriaId, centroCustoId) == Pass
    ensures Consistente(l) && l.status == Pendente && l.id == 0
    ensures l.descricao == descricao && l.valorOriginal == valorOriginal && l.dataVencimento == dataVencimento
    ensures l.tipo == tipo && l.categoriaId == categoriaId && l.centroCustoId == centroCustoId
    ensures l.usuarioId == usuarioId && l.fielId == fielId && l.fornecedorId == fornecedorId
    ensures l.valorPago == 0 && l.dataPagamento == None && l.formaPagamento == Padrao && l.observacao == None
  {
    LancamentoData(0, descricao, valorOriginal, 0, dataVencimento, None, Padrao, None, tipo, Pendente,
                   categoriaId, centroCustoId, usuarioId, fielId, fornecedorId)
  }

  /** `Baixar`: settles any entry that is not cancelled, a paid one included. */
  function Baixa(l: LancamentoData, valorPago: int, dataPagamento: DateTime): (r: Result<LancamentoData, Erro>)
    ensures r.Err? <==> l.status == Cancelado
    ensures r.Err? ==> r.error == BaixaDeCancelado
    ensures r.Ok? ==> r.value.status == Pago && r.value.valorPago == valorPago
                      && r.value.dataPagamento == Some(dataPagamento)
    ensures r.Ok? ==> MesmosDadosCadastrais(l, r.value)
  {
    if l.status == Cancelado then Err(BaixaDeCancelado)
    else Ok(l.(valorPago := valorPago, dataPagamento := Some(dataPagamento), status := Pago))
  }

  /** `EstornarBaixa`: only a paid entry can be reversed, and it goes back to pending. */
  function Estorno(l: LancamentoData): (r: Result<LancamentoData, Erro>)
    ensures r.Err? <==> l.status != Pago
    ensures r.Err? ==> r.error == EstornoDeNaoPago
    ensures r.Ok? ==> r.value.status == Pendente && r.value.valorPago == 0 && r.value.dataPagamento == None
    ensures r.Ok? ==> MesmosDadosCadastrais(l, r.value)
  {
    if l.status != Pago then Err(EstornoDeNaoPago)
    else Ok(l.(status := Pendente, valorPago := 0, dataPagamento := None))
  }

  /** `Cancelar`: refused on a paid entry; otherwise only the status changes. */
  function Cancelamento(l: LancamentoData): (r: Result<LancamentoData, Erro>)
    ensures r.Err? <==> l.status == Pago
    ensures r.Err? ==> r.error == CancelamentoDePago
    ensures r.Ok? ==> r.value.status == Cancelado && MesmosDadosCadastrais(l, r.value)
    ensures r.Ok? ==> r.value.valorPago == l.valorPago && r.value.dataPagamento == l.dataPagamento
  {
    if l.status == Pago then Err(CancelamentoDePago)
    else Ok(l.(status := Cancelado))
  }

  /** The fields the settle, reverse and cancel operations leave alone. */
  predicate MesmosDadosCadastrais(a: LancamentoData, b: LancamentoData) {
    a.id == b.id && a.descricao == b.descricao && a.valorOriginal == b.valorOriginal
    && a.dataVencimento == b.dataVencimento && a.formaPagamento == b.formaPagamento
    && a.observacao == b.observacao && a.tipo == b.tipo
    && a.categoriaId == b.categoriaId && a.centroCustoId == b.centroCustoId
    && a.usuarioId == b.usuarioId && a.fielId == b.fielId && a.fornecedorId == b.fornecedorId
  }

  /** The arguments of `AtualizarDados`. */
  datatype DadosEdicao = DadosEdicao(
    descricao: string,
    valor: int,
    dataVencimento: DateTime,
    formaPagamento: FormaPagamento,
    tipo: TipoTransacao,
    categoriaId: int,
    centroCustoId: int,
    fielId: Option<int>,
    fornecedorId: Option<int>,
    observacao: Option<string>)

  /**
   * `AtualizarDados`: rejects a blank description or a non-positive amount before
   * touching anything, and otherwise rewrites the registration fields, whatever the
   * status. Category and cost-center ids are not checked again.
   */
  function Atualizacao(l: LancamentoData, e: DadosEdicao): (r: Result<LancamentoData, Erro>)
    ensures r.Err? <==> IsBlank(e.descricao) || e.valor <= 0
    ensures r.Err? ==> r.error == (if IsBlank(e.descricao) then DescricaoObrigatoria else ValorInvalido)
    ensures r.Ok? ==> r.value.id == l.id && r.value.status == l.status && r.value.valorPago == l.valorPago
                      && r.value.dataPagamento == l.dataPagamento && r.value.usuarioId == l.usuarioId
    ensures r.Ok? ==> r.value.descricao == e.descricao && r.value.valorOriginal == e.valor
                      && r.value.dataVencimento == e.dataVencimento && r.value.formaPagamento == e.formaPagamento
                      && r.value.tipo == e.tipo && r.value.categoriaId == e.categoriaId
                      && r.value.centroCustoId == e.centroCustoId && r.value.fielId == e.fielId
                      && r.value.fornecedorId == e.fornecedorId && r.value.observacao == e.observacao
  {
    if IsBlank(e.descricao) then Err(DescricaoObrigatoria)
    else if e.valor <= 0 then Err(ValorInvalido)
    else Ok(l.(descricao := e.descricao, valorOriginal := e.valor, dataVencimento := e.dataVencimento,
               formaPagamento := e.formaPagamento, tipo := e.tipo, categoriaId := e.categoriaId,
               centroCustoId := e.centroCustoId, fielId := e.fielId, fornecedorId := e.fornecedorId,
               observacao := e.observacao))
  }

  /** A public operation on an entry. */
  datatype Operacao =
    | Baixar(valorPago: int, dataPagamento: DateTime)
    | EstornarBaixa
    | Cancelar
    | AtualizarDados(dados: DadosEdicao)

  function Passo(l: LancamentoData, op: Operacao): Result<LancamentoData, Erro> {
    match op
    case Baixar(v, d) => Baixa(l, v, d)
    case EstornarBaixa => Estorno(l)
    case Cancelar => Cancelamento(l)
    case AtualizarDados(e) => Atualizacao(l, e)
  }

  /**
   * Runs a sequence of operations; one that throws leaves the entry as it was
   * (every guard runs before the first assignment), and the next one proceeds.
   */
  function Executar(l: LancamentoData, ops: seq<Operacao>): LancamentoData
    decreases |ops|
  {
    if ops == [] then l
    else
      var p := Passo(l, ops[0]);
      Executar(if p.Ok? then p.value else l, ops[1..])
  }

  /** Each operation keeps an entry consistent. */
  lemma PassoPreservaConsistencia(l: LancamentoData, op: Operacao)
    requires Consistente(l)
    ensures Passo(l, op).Ok? ==> Consistente(Passo(l, op).value)
  {
  }

  /**
   * Every entry reachable from a constructed one is consistent: the payment date is
   * set exactly when the entry is paid, and the original amount stays positive.
   */
  lemma {:induction false} ExecutarPreservaConsistencia(l: LancamentoData, ops: seq<Operacao>)
    requires Consistente(l)
    ensures Consistente(Executar(l, ops))
    ensures Executar(l, ops).id == l.id && Executar(l, ops).usuarioId == l.usuarioId
    decreases |ops|
  {
    if ops != [] {
      PassoPreservaConsistencia(l, ops[0]);
      var p := Passo(l, ops[0]);
      ExecutarPreservaConsistencia(if p.Ok? then p.value else l, ops[1..]);
    }
  }

  /** Only a settle can make an entry paid, and only a reversal can take it back to pending. */
  lemma TransicoesDeStatus(l: LancamentoData, op: Operacao)
    requires Passo(l, op).Ok?
    ensures l.status != Pago && Passo(l, op).value.status == Pago ==> op.Baixar?
    ensures l.status == Pago && Passo(l, op).value.status != Pago ==> op.EstornarBaixa?
    ensures l.status == Cancelado && Passo(l, op).value.status != Cancelado ==> false
  {
  }

  /** Settling a pending entry and reversing the settlement restores every field. */
  lemma BaixaEstornoIdaEVolta(l: LancamentoData, valorPago: int, dataPagamento: DateTime)
    requires Consistente(l) && l.status == Pendente
    ensures Baixa(l, valorPago, dataPagamento).Ok?
    ensures Estorno(Baixa(l, valorPago, dataPagamento).value) == Ok(l)
  {
  }

  /** Cancelling is idempotent. */
  lemma CancelamentoIdempotente(l: LancamentoData)
    requires Cancelamento(l).Ok?
    ensures Cancelamento(Cancelamento(l).value) == Cancelamento(l)
  {
  }

  /** An entry, updated in place by its operations. */
  class Lancamento {
    var id: int
    var descricao: string
    var valorOriginal: int
    var valorPago: int
    var dataVencimento: DateTime
    var dataPagamento: Option<DateTime>
    var formaPagamento: FormaPagamento
    var observacao: Option<string>
    var tipo: TipoTransacao
    var status: StatusLancamento
    var categoriaId: int
    var centroCustoId: int
    var usuarioId: int
    var fielId: Option<int>
    var fornecedorId: Option<int>

    function Dados(): LancamentoData
      reads this
    {
      LancamentoData(id, descricao, valorOriginal, valorPago, dataVencimento, dataPagamento,
                     formaPagamento, observacao, tipo, status, categoriaId, centroCustoId,
                     usuarioId, fielId, fornecedorId)
    }

    /** The public constructor; it throws unless `Validar` passes. */
    constructor (descricao: string, valorOriginal: int, dataVencimento: DateTime, tipo: TipoTransacao,
                 categoriaId: int, centroCustoId: int, usuarioId: int,
                 fielId: Option<int>, fornecedorId: Option<int>)
      requires Validar(descricao, valorOriginal, categoriaId, centroCustoId) == Pass
      ensures Dados() == Novo(descricao, valorOriginal, dataVencimento, tipo, categoriaId, centroCustoId,
                              usuarioId, fielId, fornecedorId)
    {
      this.id := 0;
      this.descricao := descricao;
      this.valorOriginal := valorOriginal;
      this.valorPago := 0;
      this.dataVencimento := dataVencimento;
      this.dataPagamento := None;
      this.formaPagamento := Padrao;
      this.observacao := None;
      this.tipo := tipo;
      this.status := Pendente;
      this.categoriaId := categoriaId;
      this.centroCustoId := centroCustoId;
      this.usuarioId := usuarioId;
      this.fielId := fielId;
      this.fornecedorId := fornecedorId;
    }

    /** Entity Framework's materialisation of a stored row. */
    constructor FromDados(d: LancamentoData)
      ensures Dados() == d
    {
      id := d.id;
      descricao := d.descricao;
      valorOriginal := d.valorOriginal;
      valorPago := d.valorPago;
      dataVencimento := d.dataVencimento;
      dataPagamento := d.dataPagamento;
      formaPagamento := d.formaPagamento;
      observacao := d.observacao;
      tipo := d.tipo;
      status := d.status;
      categoriaId := d.categoriaId;
      centroCustoId := d.centroCustoId;
      usuarioId := d.usuarioId;
      fielId := d.fielId;
      fornecedorId := d.fornecedorId;
    }

    /** `new Lancamento(...)` with its exception as an error value. */
    static method Criar(descricao: string, valorOriginal: int, dataVencimento: DateTime, tipo: TipoTransacao,
                        categoriaId: int, centroCustoId: int, usuarioId: int,
                        fielId: Option<int>, fornecedorId: Option<int>) returns (r: Result<Lancamento, Erro>)
      ensures r.Err? <==> Validar(descricao, valorOriginal, categoriaId, centroCustoId).Fail?
      ensures r.Err? ==> Fail(r.error) == Validar(descricao, valorOriginal, categoriaId, centroCustoId)
      ensures r.Ok? ==> fresh(r.value) && r.value.Dados() == Novo(descricao, valorOriginal, dataVencimento, tipo,
                                                                 categoriaId, centroCustoId, usuarioId, fielId, fornecedorId)
    {
      var v := Validar(descricao, valorOriginal, categoriaId, centroCustoId);
      if v.Fail? {
        return Err(v.error);
      }
      var l := new Lancamento(descricao, valorOriginal, dataVencimento, tipo, categoriaId, centroCustoId,
                              usuarioId, fielId, fornecedorId);
      return Ok(l);
    }

    method Baixar(valorPago: int, dataPagamento: DateTime) returns (o: Outcome<Erro>)
      modifies this
      ensures Baixa(old(Dados()), valorPago, dataPagamento).Ok? ==>
                o == Pass && Dados() == Baixa(old(Dados()), valorPago, dataPagamento).value
      ensures Baixa(old(Dados()), valorPago, dataPagamento).Err? ==>
                o == Fail(BaixaDeCancelado) && Dados() == old(Dados())
    {
      if status == Cancelado {
        return Fail(BaixaDeCancelado);
      }
      this.valorPago := valorPago;
      this.dataPagamento := Some(dataPagamento);
      status := Pago;
      return Pass;
    }

    method EstornarBaixa() returns (o: Outcome<Erro>)
      modifies this
      ensures Estorno(old(Dados())).Ok? ==> o == Pass && Dados() == Estorno(old(Dados())).value
      ensures Estorno(old(Dados())).Err? ==> o == Fail(EstornoDeNaoPago) && Dados() == old(Dados())
    {
      if status != Pago {
        return Fail(EstornoDeNaoPago);
      }
      status := Pendente;
      valorPago := 0;
      dataPagamento := None;
      return Pass;
    }

    method Cancelar() returns (o: Outcome<Erro>)
      modifies this
      ensures Cancelamento(old(Dados())).Ok? ==> o == Pass && Dados() == Cancelamento(old(Dados())).value
      ensures Cancelamento(old(Dados())).Err? ==> o == Fail(CancelamentoDePago) && Dados() == old(Dados())
    {
      if status == Pago {
        return Fail(CancelamentoDePago);
      }
      status := Cancelado;
      return Pass;
    }

    /** The assignments of `AtualizarDados`, once its guards have passed. */
    method Atribuir(e: DadosEdicao)
      modifies this
      ensures descricao == e.descricao && valorOriginal == e.valor && dataVencimento == e.dataVencimento
      ensures formaPagamento == e.formaPagamento && tipo == e.tipo && categoriaId == e.categoriaId
      ensures centroCustoId == e.centroCustoId && fielId == e.fielId && fornecedorId == e.fornecedorId
      ensures observacao == e.observacao
      ensures id == old(id) && valorPago == old(valorPago) && dataPagamento == old(dataPagamento)
      ensures status == old(status) && usuarioId == old(usuarioId)
    {
      descricao := e.descricao;
      valorOriginal := e.valor;
      dataVencimento := e.dataVencimento;
      formaPagamento := e.formaPagamento;
      tipo := e.tipo;
      categoriaId := e.categoriaId;
      centroCustoId := e.centroCustoId;
      fielId := e.fielId;
      fornecedorId := e.fornecedorId;
      observacao := e.observacao;
    }

    method AtualizarDados(e: DadosEdicao) returns (o: Outcome<Erro>)
      modifies this
      ensures Atualizacao(old(Dados()), e).Ok? ==> o == Pass && Dados() == Atualizacao(old(Dados()), e).value
      ensures Atualizacao(old(Dados()), e).Err? ==>
                o == Fail(Atualizacao(old(Dados()), e).error) && Dados() == old(Dados())
    {
      if IsBlank(e.descricao) {
        return Fail(DescricaoObrigatoria);
      }
      if e.valor <= 0 {
        return Fail(ValorInvalido);
      }
      Atribuir(e);
      return Pass;
    }
  }
}
