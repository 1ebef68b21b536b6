/**
 * The figures of `RelatorioPdfService.GerarPdf` (not its layout): the amount each
 * item is reported with, the grand totals by type, the groupings of the items by
 * cost-center name and by category name in ascending key order, each group's
 * subtotals, the order of the detail rows, and the header's filter line.
 */
module Relatorio {
  import opened Wrappers
  import opened Text
  import opened Calendar
  import opened Somas
  import Ordering
  import opened Lancamentos
  import opened LancamentoServico

  /** `x.ValorPago ?? x.ValorOriginal`: the amount an item is reported with. */
  function ValorRelatorio(d: LancamentoDto): (v: int)
    ensures d.valorPago.Some? ==> v == d.valorPago.value
    ensures d.valorPago.None? ==> v == d.valorOriginal
  {
    d.valorPago.GetOr(d.valorOriginal)
  }

  /** `Where(x => x.Tipo == tipo).Sum(ValorRelatorio)`. */
  function TotalTipo(ds: seq<LancamentoDto>, tipo: TipoTransacao): int {
    Soma(Filtrar(ds, (x: LancamentoDto) => x.tipo == tipo), ValorRelatorio)
  }

  /** The receipts, the expenses and their difference, of the whole report or of one group. */
  datatype Totais = Totais(receitas: int, despesas: int, saldo: int)

  /** `totalGeralReceitas`, `totalGeralDespesas`, `saldoGeral` (and a group's `r`, `d`, `s`). */
  function TotaisDe(ds: seq<LancamentoDto>): (t: Totais)
    ensures t.saldo == t.receitas - t.despesas
  {
    var r := TotalTipo(ds, Receita);
    var d := TotalTipo(ds, Despesa);
    Totais(r, d, r - d)
  }

  /** An item's reported amount if it has the type, else 0. */
  function ParcelaTipo(d: LancamentoDto, tipo: TipoTransacao): int {
    if d.tipo == tipo then ValorRelatorio(d) else 0
  }

  /** An item's signed reported amount: receipts up, expenses down. */
  function ParcelaAssinadaRelatorio(d: LancamentoDto): int {
    if d.tipo == Receita then ValorRelatorio(d) else -ValorRelatorio(d)
  }

  /**
   * Each total of a type is the sum of the per-item shares of that type, and the
   * balance is the sum of the signed amounts: every item counts once, on its side.
   */
  lemma TotaisPorItem(ds: seq<LancamentoDto>)
    ensures TotalTipo(ds, Receita) == Soma(ds, d => ParcelaTipo(d, Receita))
    ensures TotalTipo(ds, Despesa) == Soma(ds, d => ParcelaTipo(d, Despesa))
    ensures TotaisDe(ds).saldo == Soma(ds, ParcelaAssinadaRelatorio)
  {
    TotalTipoPorItem(ds, Receita);
    TotalTipoPorItem(ds, Despesa);
    SomaDiferenca(ds, d => ParcelaTipo(d, Receita), d => ParcelaTipo(d, Despesa), ParcelaAssinadaRelatorio);
  }

  lemma TotalTipoPorItem(ds: seq<LancamentoDto>, tipo: TipoTransacao)
    ensures TotalTipo(ds, tipo) == Soma(ds, d => ParcelaTipo(d, tipo))
  {
    SomaFiltrada(ds, (x: LancamentoDto) => x.tipo == tipo, ValorRelatorio, d => ParcelaTipo(d, tipo));
  }

  predicate Distintas(ks: seq<string>) {
    forall i, j :: 0 <= i < j < |ks| ==> ks[i] != ks[j]
  }

  /** The keys of `ks`, each once, in the order they first appear. */
  function SemRepeticao(ks: seq<string>): (r: seq<string>)
    ensures Distintas(r)
    ensures forall k :: k in r <==> k in ks
    decreases |ks|
  {
    if ks == [] then []
    else
      var k := ks[|ks| - 1];
      var r := SemRepeticao(ks[..|ks| - 1]);
      assert ks == ks[..|ks| - 1] + [k];
      if k in r then r else r + [k]
  }

  lemma {:induction false} ContagemDistinta(ks: seq<string>, k: string)
    requires Distintas(ks)
    ensures multiset(ks)[k] <= 1
    decreases |ks|
  {
    if ks != [] {
      var u := ks[|ks| - 1];
      var p := ks[..|ks| - 1];
      assert ks == p + [u];
      assert Distintas(p);
      ContagemDistinta(p, k);
      if k == u {
        assert k !in p by {
          forall i | 0 <= i < |p| ensures p[i] != u {
            assert p[i] == ks[i];
          }
        }
      }
    }
  }

  /** A reordering of keys that occur once each still has each key once. */
  lemma PermutacaoDistinta(ks: seq<string>, r: seq<string>)
    requires Distintas(ks) && multiset(r) == multiset(ks)
    ensures Distintas(r)
  {
    forall i, j | 0 <= i < j < |r| ensures r[i] != r[j] {
      if r[i] == r[j] {
        assert r == r[..i] + [r[i]] + r[i + 1..j] + [r[j]] + r[j + 1..];
        assert multiset(r)[r[i]] >= 2;
        ContagemDistinta(ks, r[i]);
        assert false;
      }
    }
  }

  /** The key of every item, in the items' order. */
  function ChavesDe(ds: seq<LancamentoDto>, chave: LancamentoDto -> string): (r: seq<string>)
    ensures |r| == |ds| && forall i :: 0 <= i < |ds| ==> r[i] == chave(ds[i])
  {
    seq(|ds|, i requires 0 <= i < |ds| => chave(ds[i]))
  }

  lemma MesmosElementos(a: seq<string>, b: seq<string>)
    requires multiset(a) == multiset(b)
    ensures forall k :: k in a <==> k in b
  {
    forall k ensures k in a <==> k in b {
      assert k in a <==> k in multiset(a);
      assert k in b <==> k in multiset(b);
    }
  }

  /** `GroupBy(chave).OrderBy(g => g.Key)`'s keys: each key of the items once, ascending. */
  function ChavesOrdenadas(ds: seq<LancamentoDto>, chave: LancamentoDto -> string): (ks: seq<string>)
    ensures Distintas(ks)
    ensures forall k :: k in ks <==> k in ChavesDe(ds, chave)
    ensures forall i, j :: 0 <= i < j < |ks| ==> Ordering.LexLe(OrdinalKey(ks[i]), OrdinalKey(ks[j]))
  {
    var unicas := SemRepeticao(ChavesDe(ds, chave));
    var ks := Ordering.SortBy(unicas, OrdinalKey);
    PermutacaoDistinta(unicas, ks);
    MesmosElementos(ks, unicas);
    ks
  }

  /** One group of the report: its key and its items, in the order they were given. */
  datatype GrupoRelatorio = GrupoRelatorio(chave: string, itens: seq<LancamentoDto>)

  /**
   * The groups of the items by `chave`, in ascending key order: one group per
   * distinct key, none empty, holding exactly the items with that key.
   */
  function Agrupar(ds: seq<LancamentoDto>, chave: LancamentoDto -> string): (gs: seq<GrupoRelatorio>)
    ensures |gs| == |ChavesOrdenadas(ds, chave)|
    ensures forall i :: 0 <= i < |gs| ==>
      gs[i].chave == ChavesOrdenadas(ds, chave)[i] && gs[i].itens == Grupo(ds, chave, gs[i].chave)
  {
    var ks := ChavesOrdenadas(ds, chave);
    seq(|ks|, i requires 0 <= i < |ks| => GrupoRelatorio(ks[i], Grupo(ds, chave, ks[i])))
  }

  /**
   * Grouping partitions the items: every item lies in exactly one group (the one of
   * its key), no group is empty, keys do not repeat and ascend.
   */
  lemma AgruparParticiona(ds: seq<LancamentoDto>, chave: LancamentoDto -> string)
    ensures forall x :: x in ds ==>
      exists i :: 0 <= i < |Agrupar(ds, chave)| && x in Agrupar(ds, chave)[i].itens
    ensures forall x, i, j ::
      (0 <= i < |Agrupar(ds, chave)| && 0 <= j < |Agrupar(ds, chave)|
       && x in Agrupar(ds, chave)[i].itens && x in Agrupar(ds, chave)[j].itens) ==> i == j
    ensures forall i :: 0 <= i < |Agrupar(ds, chave)| ==> Agrupar(ds, chave)[i].itens != []
    ensures forall i, j :: 0 <= i < j < |Agrupar(ds, chave)| ==>
      Agrupar(ds, chave)[i].chave != Agrupar(ds, chave)[j].chave
      && Ordering.LexLe(OrdinalKey(Agrupar(ds, chave)[i].chave), OrdinalKey(Agrupar(ds, chave)[j].chave))
  {
    var gs := Agrupar(ds, chave);
    var ks := ChavesOrdenadas(ds, chave);
    forall x | x in ds ensures exists i :: 0 <= i < |gs| && x in gs[i].itens {
      var m :| 0 <= m < |ds| && ds[m] == x;
      assert ChavesDe(ds, chave)[m] == chave(x);
      assert chave(x) in ks;
      var i :| 0 <= i < |ks| && ks[i] == chave(x);
      assert x in gs[i].itens;
    }
    forall i | 0 <= i < |gs| ensures gs[i].itens != [] {
      assert ks[i] in ks;
      var m :| 0 <= m < |ds| && chave(ds[m]) == ks[i];
      assert ds[m] in gs[i].itens;
    }
  }

  /** A group's subtotal of one type (`r` or `d` of its summary row). */
  function SubtotalTipo(g: GrupoRelatorio, tipo: TipoTransacao): int {
    TotalTipo(g.itens, tipo)
  }

  /** A group's balance (`s` of its summary row). */
  function SaldoGrupo(g: GrupoRelatorio): int {
    TotaisDe(g.itens).saldo
  }

  /** The sum over the groups of their receipts (or expenses) of one type. */
  function SomaGruposTipo(gs: seq<GrupoRelatorio>, tipo: TipoTransacao): int {
    Soma(gs, g => SubtotalTipo(g, tipo))
  }

  /** The sum over the groups of their balances. */
  function SomaSaldosGrupos(gs: seq<GrupoRelatorio>): int {
    Soma(gs, SaldoGrupo)
  }

  /** The groups' subtotals of a type add up to the grand total of that type. */
  lemma GruposFechamTipo(ds: seq<LancamentoDto>, chave: LancamentoDto -> string, tipo: TipoTransacao)
    ensures SomaGruposTipo(Agrupar(ds, chave), tipo) == TotalTipo(ds, tipo)
  {
    var gs := Agrupar(ds, chave);
    var ks := ChavesOrdenadas(ds, chave);
    var f := d => ParcelaTipo(d, tipo);
    forall i | 0 <= i < |gs| ensures TotalTipo(gs[i].itens, tipo) == Soma(Grupo(ds, chave, ks[i]), f) {
      TotalTipoPorItem(gs[i].itens, tipo);
    }
    SomaCorrespondente(gs, ks, g => SubtotalTipo(g, tipo), k => Soma(Grupo(ds, chave, k), f));
    SomaGruposPorChave(ds, chave, ks, f);
    forall i | 0 <= i < |ds| ensures chave(ds[i]) in ks {
    }
    SomaGruposParticao(ds, chave, ks, f);
    TotalTipoPorItem(ds, tipo);
  }

  /**
   * The per-group `r`, `d` and `s` summed over all groups equal `totalGeralReceitas`,
   * `totalGeralDespesas` and `saldoGeral`.
   */
  lemma GruposFecham(ds: seq<LancamentoDto>, chave: LancamentoDto -> string)
    ensures SomaGruposTipo(Agrupar(ds, chave), Receita) == TotaisDe(ds).receitas
    ensures SomaGruposTipo(Agrupar(ds, chave), Despesa) == TotaisDe(ds).despesas
    ensures SomaSaldosGrupos(Agrupar(ds, chave)) == TotaisDe(ds).saldo
  {
    var gs := Agrupar(ds, chave);
    GruposFechamTipo(ds, chave, Receita);
    GruposFechamTipo(ds, chave, Despesa);
    SomaDiferenca(gs, g => SubtotalTipo(g, Receita), g => SubtotalTipo(g, Despesa), SaldoGrupo);
  }

  function ChaveCentroCusto(d: LancamentoDto): string {
    d.centroCustoNome
  }

  function ChaveCategoria(d: LancamentoDto): string {
    d.categoriaNome
  }

  /** `dadosAgrupadosCC`. */
  function PorCentroCusto(ds: seq<LancamentoDto>): seq<GrupoRelatorio> {
    Agrupar(ds, ChaveCentroCusto)
  }

  /** `dadosAgrupadosCategoria`. */
  function PorCategoria(ds: seq<LancamentoDto>): seq<GrupoRelatorio> {
    Agrupar(ds, ChaveCategoria)
  }

  /**
   * The cost-center summary and the category summary close on the same footer:
   * both add up to the grand totals, so they agree with each other.
   */
  lemma ResumosConcordam(ds: seq<LancamentoDto>)
    ensures SomaGruposTipo(PorCentroCusto(ds), Receita) == SomaGruposTipo(PorCategoria(ds), Receita) == TotaisDe(ds).receitas
    ensures SomaGruposTipo(PorCentroCusto(ds), Despesa) == SomaGruposTipo(PorCategoria(ds), Despesa) == TotaisDe(ds).despesas
    ensures SomaSaldosGrupos(PorCentroCusto(ds)) == SomaSaldosGrupos(PorCategoria(ds)) == TotaisDe(ds).saldo
  {
    GruposFecham(ds, ChaveCentroCusto);
    GruposFecham(ds, ChaveCategoria);
  }

  function ChaveVencimentoDto(d: LancamentoDto): seq<int> {
    Key(d.dataVencimento)
  }

  /** `grupo.OrderBy(x => x.DataVencimento)`: a group's detail rows, by due date. */
  function LinhasDetalhe(g: GrupoRelatorio): (r: seq<LancamentoDto>)
    ensures multiset(r) == multiset(g.itens)
    ensures forall i, j :: 0 <= i < j < |r| ==> Le(r[i].dataVencimento, r[j].dataVencimento)
  {
    var r := Ordering.SortBy(g.itens, ChaveVencimentoDto);
    forall i, j | 0 <= i < j < |r| ensures Le(r[i].dataVencimento, r[j].dataVencimento) {
      KeyOrder(r[i].dataVencimento, r[j].dataVencimento);
    }
    r
  }

  /** The header's filter line: a specific cost center only for an id above 0 (a null id is not). */
  function TextoFiltro(centroCustoId: Option<int>): (t: string)
    ensures t == "Filtro: Centro de Custo Específico" <==> centroCustoId.Some? && centroCustoId.value > 0
    ensures t != "Filtro: Centro de Custo Específico" ==> t == "Visualização: Todos os Centros de Custo"
  {
    if centroCustoId.Some? && centroCustoId.value > 0 then "Filtro: Centro de Custo Específico"
    else "Visualização: Todos os Centros de Custo"
  }
}
