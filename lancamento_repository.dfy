/**
 * `LancamentoRepository`: the queries over the entry table (pure Where/OrderBy/Sum
 * expressions, modelled as functions over the rows in table order) and the
 * stage-then-commit write path of the database context.
 */
module LancamentoRepositorio {
  import opened Wrappers
  import opened Calendar
  import opened Lancamentos
  import Ordering
  import opened Somas

  /** No two rows share an id (the primary key). */
  predicate IdsUnicos(ls: seq<LancamentoData>) {
    forall i, j :: 0 <= i < j < |ls| ==> ls[i].id != ls[j].id
  }

  /** `inicio <= d && d <= fim`. */
  predicate NoPeriodo(d: DateTime, inicio: DateTime, fim: DateTime) {
    Le(inicio, d) && Le(d, fim)
  }

  /** `FirstOrDefault(l => l.Id == id)`: the first row with that id. */
  function PorId(ls: seq<LancamentoData>, id: int): (r: Option<LancamentoData>)
    ensures r.None? <==> forall i :: 0 <= i < |ls| ==> ls[i].id != id
    ensures r.Some? ==> r.value.id == id && r.value == ls[IndicePorId(ls, id)]
    decreases |ls|
  {
    if ls == [] then None
    else if ls[0].id == id then Some(ls[0])
    else
      assert forall i :: 0 < i < |ls| ==> ls[i] == ls[1..][i - 1];
      PorId(ls[1..], id)
  }

  /** With unique ids, the row found is the one row with that id. */
  lemma PorIdUnico(ls: seq<LancamentoData>, k: int)
    requires IdsUnicos(ls) && 0 <= k < |ls|
    ensures PorId(ls, ls[k].id) == Some(ls[k])
  {
    var j := IndicePorId(ls, ls[k].id);
    assert !(k < j);
  }

  /** `Where(l => l.DataVencimento >= inicio && l.DataVencimento <= fim)`, in table order. */
  function FiltrarPeriodo(ls: seq<LancamentoData>, inicio: DateTime, fim: DateTime): (r: seq<LancamentoData>)
    ensures forall l :: l in r <==> l in ls && NoPeriodo(l.dataVencimento, inicio, fim)
    ensures |r| <= |ls|
    decreases |ls|
  {
    if ls == [] then []
    else
      var resto := FiltrarPeriodo(ls[..|ls| - 1], inicio, fim);
      var l := ls[|ls| - 1];
      assert ls == ls[..|ls| - 1] + [l];
      if NoPeriodo(l.dataVencimento, inicio, fim) then resto + [l] else resto
  }

  function ChaveVencimento(l: LancamentoData): seq<int> {
    Key(l.dataVencimento)
  }

  /** `ObterPorPeriodoAsync`: the rows due in the range, ordered by due date. */
  function PorPeriodo(ls: seq<LancamentoData>, inicio: DateTime, fim: DateTime): (r: seq<LancamentoData>)
    ensures multiset(r) == multiset(FiltrarPeriodo(ls, inicio, fim))
    ensures forall l :: l in r <==> l in ls && NoPeriodo(l.dataVencimento, inicio, fim)
    ensures forall i, j :: 0 <= i < j < |r| ==> Le(r[i].dataVencimento, r[j].dataVencimento)
  {
    var f := FiltrarPeriodo(ls, inicio, fim);
    var r := Ordering.SortBy(f, ChaveVencimento);
    forall l ensures l in r <==> l in f {
      assert l in r <==> l in multiset(r);
    }
    forall i, j | 0 <= i < j < |r| ensures Le(r[i].dataVencimento, r[j].dataVencimento) {
      KeyOrder(r[i].dataVencimento, r[j].dataVencimento);
    }
    r
  }

  /** One row's share of `ObterTotalPrevistoAsync`. */
  function ParcelaPrevista(l: LancamentoData, inicio: DateTime, fim: DateTime, tipo: TipoTransacao): int {
    if l.status != Cancelado && NoPeriodo(l.dataVencimento, inicio, fim) && l.tipo == tipo
    then l.valorOriginal else 0
  }

  /** One row's share of `ObterTotalPorPeriodoETipoAsync`; a null payment date compares false. */
  function ParcelaRealizada(l: LancamentoData, inicio: DateTime, fim: DateTime, tipo: TipoTransacao): int {
    if l.status == Pago && l.dataPagamento.Some? && NoPeriodo(l.dataPagamento.value, inicio, fim) && l.tipo == tipo
    then l.valorPago else 0
  }

  /** `ObterTotalPrevistoAsync`: original amounts of the non-cancelled rows of a type due in the range. */
  function TotalPrevisto(ls: seq<LancamentoData>, inicio: DateTime, fim: DateTime, tipo: TipoTransacao): int {
    Soma(ls, l => ParcelaPrevista(l, inicio, fim, tipo))
  }

  /** `ObterTotalPorPeriodoETipoAsync`: paid amounts of the paid rows of a type paid in the range. */
  function TotalRealizado(ls: seq<LancamentoData>, inicio: DateTime, fim: DateTime, tipo: TipoTransacao): int {
    Soma(ls, l => ParcelaRealizada(l, inicio, fim, tipo))
  }

  /** The forecast over the table is the forecast over the period listing. */
  lemma TotalPrevistoPorPeriodo(ls: seq<LancamentoData>, inicio: DateTime, fim: DateTime, tipo: TipoTransacao)
    ensures TotalPrevisto(ls, inicio, fim, tipo) == TotalPrevisto(PorPeriodo(ls, inicio, fim), inicio, fim, tipo)
  {
    var f := l => ParcelaPrevista(l, inicio, fim, tipo);
    SomaPermutacao(PorPeriodo(ls, inicio, fim), FiltrarPeriodo(ls, inicio, fim), f);
    SomaFiltro(ls, inicio, fim, tipo);
  }

  lemma {:induction false} SomaFiltro(ls: seq<LancamentoData>, inicio: DateTime, fim: DateTime, tipo: TipoTransacao)
    ensures TotalPrevisto(ls, inicio, fim, tipo) == TotalPrevisto(FiltrarPeriodo(ls, inicio, fim), inicio, fim, tipo)
    decreases |ls|
  {
    var f := l => ParcelaPrevista(l, inicio, fim, tipo);
    if ls != [] {
      var l := ls[|ls| - 1];
      var resto := FiltrarPeriodo(ls[..|ls| - 1], inicio, fim);
      SomaFiltro(ls[..|ls| - 1], inicio, fim, tipo);
      if NoPeriodo(l.dataVencimento, inicio, fim) {
        assert (resto + [l])[..|resto + [l]| - 1] == resto;
      }
    }
  }

  /** Pending and cancelled rows add nothing to the realized total; cancelled rows nothing to the forecast. */
  lemma ParcelasIgnoradas(l: LancamentoData, inicio: DateTime, fim: DateTime, tipo: TipoTransacao)
    ensures l.status != Pago ==> ParcelaRealizada(l, inicio, fim, tipo) == 0
    ensures l.status == Cancelado ==> ParcelaPrevista(l, inicio, fim, tipo) == 0
  {
  }

  /** Adding a cancelled row anywhere leaves the forecast and realized totals unchanged. */
  lemma CanceladoNaoConta(a: seq<LancamentoData>, b: seq<LancamentoData>, x: LancamentoData,
                          inicio: DateTime, fim: DateTime, tipo: TipoTransacao)
    requires x.status == Cancelado
    ensures TotalPrevisto(a + [x] + b, inicio, fim, tipo) == TotalPrevisto(a + b, inicio, fim, tipo)
    ensures TotalRealizado(a + [x] + b, inicio, fim, tipo) == TotalRealizado(a + b, inicio, fim, tipo)
  {
    var fp := l => ParcelaPrevista(l, inicio, fim, tipo);
    var fr := l => ParcelaRealizada(l, inicio, fim, tipo);
    SomaConcat(a + [x], b, fp);
    SomaConcat(a, [x], fp);
    SomaConcat(a, b, fp);
    SomaConcat(a + [x], b, fr);
    SomaConcat(a, [x], fr);
    SomaConcat(a, b, fr);
    assert [x][..0] == [];
  }

  /** A change staged in the context. */
  datatype Mudanca = Insercao(l: LancamentoData) | Atualizacao(l: LancamentoData)

  /** Why `SaveChanges` threw: an update of a row that is not in the table. */
  datatype ErroGravacao = LinhaInexistente(id: int)

  /** Position of the row with id `id`. */
  function IndicePorId(ls: seq<LancamentoData>, id: int): (k: int)
    requires exists i :: 0 <= i < |ls| && ls[i].id == id
    ensures 0 <= k < |ls| && ls[k].id == id
    ensures forall i :: 0 <= i < k ==> ls[i].id != id
    decreases |ls|
  {
    if ls[0].id == id then 0
    else
      assert exists i :: 0 <= i < |ls[1..]| && ls[1..][i].id == id by {
        var i :| 0 <= i < |ls| && ls[i].id == id;
        assert ls[1..][i - 1] == ls[i];
      }
      1 + IndicePorId(ls[1..], id)
  }

  /**
   * `SaveChanges`: writes the staged changes in order; an insertion gets the next
   * identity value, an update overwrites the row with its id. All or nothing.
   */
  function Gravar(ls: seq<LancamentoData>, proximoId: int, mudancas: seq<Mudanca>): Result<(seq<LancamentoData>, int), ErroGravacao>
    decreases |mudancas|
  {
    if mudancas == [] then Ok((ls, proximoId))
    else match mudancas[0]
      case Insercao(l) => Gravar(ls + [l.(id := proximoId)], proximoId + 1, mudancas[1..])
      case Atualizacao(l) =>
        if exists i :: 0 <= i < |ls| && ls[i].id == l.id
        then Gravar(ls[IndicePorId(ls, l.id) := l], proximoId, mudancas[1..])
        else Err(LinhaInexistente(l.id))
  }

  /** The key invariant of the table: unique ids, all below the next identity value. */
  predicate Chaves(ls: seq<LancamentoData>, proximoId: int) {
    IdsUnicos(ls) && proximoId > 0 && forall i :: 0 <= i < |ls| ==> 0 < ls[i].id < proximoId
  }

  /** Writing staged changes keeps the keys unique and the identity counter ahead. */
  lemma {:induction false} GravarPreservaChaves(ls: seq<LancamentoData>, proximoId: int, mudancas: seq<Mudanca>)
    requires Chaves(ls, proximoId)
    ensures Gravar(ls, proximoId, mudancas).Ok? ==>
              Chaves(Gravar(ls, proximoId, mudancas).value.0, Gravar(ls, proximoId, mudancas).value.1)
              && Gravar(ls, proximoId, mudancas).value.1 >= proximoId
    decreases |mudancas|
  {
    if mudancas != [] {
      match mudancas[0]
      case Insercao(l) =>
        GravarPreservaChaves(ls + [l.(id := proximoId)], proximoId + 1, mudancas[1..]);
      case Atualizacao(l) =>
        if exists i :: 0 <= i < |ls| && ls[i].id == l.id {
          var k := IndicePorId(ls, l.id);
          var ls' := ls[k := l];
          assert Chaves(ls', proximoId) by {
            forall i, j | 0 <= i < j < |ls'| ensures ls'[i].id != ls'[j].id {
              assert ls'[i].id == ls[i].id && ls'[j].id == ls[j].id;
            }
          }
          GravarPreservaChaves(ls', proximoId, mudancas[1..]);
        }
    }
  }

  /** The repository over a database context: the table, the staged changes and the identity counter. */
  class LancamentoRepository {
    var linhas: seq<LancamentoData>
    var pendentes: seq<Mudanca>
    var proximoId: int

    predicate Valid()
      reads this
    {
      Chaves(linhas, proximoId)
    }

    constructor ()
      ensures Valid() && linhas == [] && pendentes == []
    {
      linhas := [];
      pendentes := [];
      proximoId := 1;
    }

    /** `ObterPorIdAsync`. */
    function ObterPorId(id: int): Option<LancamentoData>
      reads this
    {
      PorId(linhas, id)
    }

    /** `ObterPorPeriodoAsync`. */
    function ObterPorPeriodo(inicio: DateTime, fim: DateTime): seq<LancamentoData>
      reads this
    {
      PorPeriodo(linhas, inicio, fim)
    }

    /** `AdicionarAsync`: stages an insertion and writes nothing. */
    method Adicionar(l: Lancamento)
      modifies this
      ensures pendentes == old(pendentes) + [Insercao(l.Dados())]
      ensures linhas == old(linhas) && proximoId == old(proximoId)
    {
      pendentes := pendentes + [Insercao(l.Dados())];
    }

    /** `AtualizarAsync`: stages an update and writes nothing. */
    method Atualizar(l: Lancamento)
      modifies this
      ensures pendentes == old(pendentes) + [Atualizacao(l.Dados())]
      ensures linhas == old(linhas) && proximoId == old(proximoId)
    {
      pendentes := pendentes + [Atualizacao(l.Dados())];
    }

    /**
     * `CommitAsync`: writes the staged changes and reports whether any row was
     * written; when `SaveChanges` throws, nothing is written and the changes stay staged.
     */
    method Commit() returns (r: Result<bool, ErroGravacao>)
      requires Valid()
      modifies this
      ensures Valid()
      ensures Gravar(old(linhas), old(proximoId), old(pendentes)).Ok? ==>
                r == Ok(old(pendentes) != []) && pendentes == []
                && (linhas, proximoId) == Gravar(old(linhas), old(proximoId), old(pendentes)).value
      ensures Gravar(old(linhas), old(proximoId), old(pendentes)).Err? ==>
                r.Err? && r.error == Gravar(old(linhas), old(proximoId), old(pendentes)).error
                && linhas == old(linhas) && pendentes == old(pendentes) && proximoId == old(proximoId)
    {
      var g := Gravar(linhas, proximoId, pendentes);
      GravarPreservaChaves(linhas, proximoId, pendentes);
      if g.Err? {
        return Err(g.error);
      }
      r := Ok(pendentes != []);
      linhas, proximoId := g.value.0, g.value.1;
      pendentes := [];
    }
  }
}
