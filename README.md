# Tesouraria core, modelled in Dafny

Tesouraria is a desktop treasury application for a parish. Its core keeps
financial entries (lançamentos): receipts (Receita) and expenses (Despesa),
each due on a date, tied to a category and a cost center, and moving between
the states Pendente, Pago and Cancelado. Around that core sit:

- the service that registers, settles (baixa) and cancels entries;
- the repository that stages changes and commits them, and answers period
  queries and forecast and realized totals;
- the entry list screen, with its balances, default date range and button guards;
- the report's grand totals, its groupings by cost center and by category,
  and their subtotals;
- the bank-statement import: reading the amount text, splitting the statement
  lines into transactions, building each transaction's history, and registering
  the transactions;
- the entry form: category filtering by type, and its checks before saving;
- supplier registration, with CNPJ (company tax number) uniqueness;
- user registration and login;
- the main window's permission flags;
- the generic soft-delete repository.

Amounts are whole cents (the columns are `decimal(18,2)`; what the model leaves out of that is under "## Left out"). Dates are
`Calendar.DateTime` values ordered by (year, month, day, time of day). Text is
`seq<char>`. The clock, the file dialogs, confirmation dialogs, the PDF reader
and the password digest are parameters.

Modules follow the source files:

| file | module | models |
|---|---|---|
| `lancamento.dfy` | `Lancamentos` | the `Lancamento` entity: pure transition functions, and a class whose methods are proved against them |
| `lancamento_repository.dfy` | `LancamentoRepositorio` | queries, totals, and the staged-change repository class |
| `lancamento_service.dfy` | `LancamentoServico` | DTO projections, the balance, and the service class (specified by `Efeito*` functions) |
| `lancamento_lista.dfy` | `ListaLancamentos` | the list view model |
| `relatorio.dfy` | `Relatorio` | the report's figures |
| `extrato.dfy` | `Extrato` | the statement reader |
| `importacao_extrato.dfy` | `ImportacaoExtrato` | the import view model |
| `lancamento_cadastro.dfy` | `LancamentoCadastro` | the entry form view model |
| `fornecedor_service.dfy` | `Fornecedores` | the supplier repository and service, over a tracked context |
| `usuario_service.dfy` | `Usuarios` | the user repository and service |
| `repository.dfy` | `RepositorioGenerico` | the generic soft-delete `Repository<T>` |
| `main_view_model.dfy` | `Principal` | the main window's permissions |

Supporting modules hold generic pieces:

- Wrappers: Option, Result and Outcome.
- Text: trimming, ASCII case folding, search.
- Calendar: dates.
- Ordering: lexicographic keys, and an insertion sort standing for `OrderBy`, proved stable.
- Somas: sums, filters and group sums.
- Cadastros: the category and cost-center records.

## Model

| member | source | states |
|---|---|---|
| `Lancamentos.Validar` | Tesouraria.Domain/Entities/Lancamento.cs:100-106 | validation passes iff the description is not blank, the amount is above 0 and both ids are above 0; a blank description is reported first, then the amount |
| `Lancamentos.Novo` | Tesouraria.Domain/Entities/Lancamento.cs:42-65 | a validated new entry is Pendente and consistent, carries every given field, and has nothing paid |
| `Lancamentos.Baixa` | Tesouraria.Domain/Entities/Lancamento.cs:82-90 | settling fails exactly on a Cancelado entry; otherwise, even when the entry is already Pago, it sets Pago, the paid amount and the payment date, and leaves the registration data alone |
| `Lancamentos.Estorno` | Tesouraria.Domain/Entities/Lancamento.cs:67-80 | reversal fails unless the entry is Pago; it returns the entry to Pendente with nothing paid and no payment date |
| `Lancamentos.Cancelamento` | Tesouraria.Domain/Entities/Lancamento.cs:92-98 | cancelling fails exactly on a Pago entry; otherwise the entry becomes Cancelado and nothing else changes |
| `Lancamentos.Atualizacao` | Tesouraria.Domain/Entities/Lancamento.cs:109-143 | an edit fails iff the description is blank or the amount is not above 0, with that error; on success the editable fields take the new values, and id, status, paid amount, payment date and user are kept |
| `Lancamentos.PassoPreservaConsistencia` | Tesouraria.Domain/Entities/Lancamento.cs:67-143 | every accepted operation keeps the entry consistent: payment date present iff Pago, nothing paid unless Pago, amount above 0, description not blank |
| `Lancamentos.ExecutarPreservaConsistencia` | Tesouraria.Domain/Entities/Lancamento.cs:42-143 | any sequence of operations on a consistent entry keeps it consistent and keeps its id and user |
| `Lancamentos.TransicoesDeStatus` | Tesouraria.Domain/Entities/Lancamento.cs:67-98 | only settling enters Pago, only reversal leaves Pago, and nothing leaves Cancelado |
| `Lancamentos.BaixaEstornoIdaEVolta` | Tesouraria.Domain/Entities/Lancamento.cs:67-90 | settling a consistent Pendente entry and then reversing it gives back exactly the original entry |
| `Lancamentos.CancelamentoIdempotente` | Tesouraria.Domain/Entities/Lancamento.cs:92-98 | cancelling twice is the same as cancelling once |
| `Lancamentos.Lancamento.constructor` | Tesouraria.Domain/Entities/Lancamento.cs:42-65 | the new object's state is `Novo` of the arguments |
| `Lancamentos.Lancamento.FromDados` | Tesouraria.Domain/Entities/Lancamento.cs:6-36 | an entity loaded from storage holds exactly the stored data |
| `Lancamentos.Lancamento.Criar` | Tesouraria.Domain/Entities/Lancamento.cs:42-65 | construction fails with the validation error exactly when validation fails; otherwise it yields a fresh object whose state is `Novo` of the arguments |
| `Lancamentos.Lancamento.Baixar` | Tesouraria.Domain/Entities/Lancamento.cs:82-90 | the object moves to `Baixa` of its old state, or reports the error and is unchanged |
| `Lancamentos.Lancamento.EstornarBaixa` | Tesouraria.Domain/Entities/Lancamento.cs:67-80 | the object moves to `Estorno` of its old state, or reports the error and is unchanged |
| `Lancamentos.Lancamento.Cancelar` | Tesouraria.Domain/Entities/Lancamento.cs:92-98 | the object moves to `Cancelamento` of its old state, or reports the error and is unchanged |
| `Lancamentos.Lancamento.Atribuir` | Tesouraria.Domain/Entities/Lancamento.cs:127-139 | the field assignments of an edit: the editable fields take the new values and id, status, paid amount, payment date and user keep theirs |
| `Lancamentos.Lancamento.AtualizarDados` | Tesouraria.Domain/Entities/Lancamento.cs:109-143 | the object moves to `Atualizacao` of its old state, or reports the guard's error before changing anything |
| `LancamentoRepositorio.PorId` | Tesouraria.Infrastructure/Repositories/LancamentoRepository.cs:18-24 | the lookup is absent iff no row has the id, and otherwise is the first row with that id |
| `LancamentoRepositorio.PorIdUnico` | Tesouraria.Infrastructure/Repositories/LancamentoRepository.cs:18-24 | with unique ids, looking up a row's id finds that row |
| `LancamentoRepositorio.FiltrarPeriodo` | Tesouraria.Infrastructure/Repositories/LancamentoRepository.cs:45 | keeps exactly the rows due inside the period, both ends included, cancelled rows too |
| `LancamentoRepositorio.TotalPrevisto` | Tesouraria.Infrastructure/Repositories/LancamentoRepository.cs:50-60 | the forecast total: the original amounts of the non-Cancelado entries of the type due in the period; a specification function, stated by `LancamentoRepositorio.TotalPrevistoPorPeriodo`, `LancamentoRepositorio.SomaFiltro` and `LancamentoRepositorio.CanceladoNaoConta` |
| `LancamentoRepositorio.TotalRealizado` | Tesouraria.Infrastructure/Repositories/LancamentoRepository.cs:61-69 | the realized total: the paid amounts of the Pago entries of the type paid in the period; a specification function, stated by `LancamentoRepositorio.ParcelasIgnoradas` and `LancamentoServico.BaixaNoRealizado` |
| `LancamentoRepositorio.PorPeriodo` | Tesouraria.Infrastructure/Repositories/LancamentoRepository.cs:37-48 | the period query is a permutation of the filtered rows, holds exactly the rows due in the period, and is sorted by due date |
| `LancamentoRepositorio.TotalPrevistoPorPeriodo` | Tesouraria.Infrastructure/Repositories/LancamentoRepository.cs:50-60 | the forecast total over the whole table equals the same total over the period query's rows |
| `LancamentoRepositorio.SomaFiltro` | Tesouraria.Infrastructure/Repositories/LancamentoRepository.cs:54-59 | the forecast total equals the same total over the rows due in the period |
| `LancamentoRepositorio.ParcelasIgnoradas` | Tesouraria.Infrastructure/Repositories/LancamentoRepository.cs:55-64 | an entry not Pago adds nothing to the realized total, and a Cancelado entry adds nothing to the forecast |
| `LancamentoRepositorio.CanceladoNaoConta` | Tesouraria.Infrastructure/Repositories/LancamentoRepository.cs:50-69 | inserting a Cancelado entry anywhere changes neither the forecast nor the realized total |
| `LancamentoRepositorio.IndicePorId` | Tesouraria.Infrastructure/Repositories/LancamentoRepository.cs:31-35 | the position an update writes to: the first row with the id |
| `LancamentoRepositorio.GravarPreservaChaves` | Tesouraria.Infrastructure/Repositories/LancamentoRepository.cs:71-74 | a successful commit keeps ids unique, positive and below the next key, and never lowers the next key |
| `LancamentoRepositorio.LancamentoRepository.constructor` | Tesouraria.Infrastructure/Repositories/LancamentoRepository.cs:13-16 | a new repository is empty, with nothing staged |
| `LancamentoRepositorio.LancamentoRepository.ObterPorId` | Tesouraria.Infrastructure/Repositories/LancamentoRepository.cs:18-24 | the lookup over the committed rows is `PorId`, stated by `LancamentoRepositorio.PorId` and `LancamentoRepositorio.PorIdUnico` |
| `LancamentoRepositorio.LancamentoRepository.ObterPorPeriodo` | Tesouraria.Infrastructure/Repositories/LancamentoRepository.cs:37-48 | the period query over the committed rows is `PorPeriodo`, stated by `LancamentoRepositorio.PorPeriodo` |
| `LancamentoRepositorio.LancamentoRepository.Adicionar` | Tesouraria.Infrastructure/Repositories/LancamentoRepository.cs:26-29 | adding only stages an insertion; the stored rows and the next key are unchanged |
| `LancamentoRepositorio.LancamentoRepository.Atualizar` | Tesouraria.Infrastructure/Repositories/LancamentoRepository.cs:31-35 | updating only stages a change; the stored rows and the next key are unchanged |
| `LancamentoRepositorio.LancamentoRepository.Commit` | Tesouraria.Infrastructure/Repositories/LancamentoRepository.cs:71-74 | commit writes the staged changes in order, clears them, and returns true iff anything was staged; if a change names a missing row, nothing changes and the error is returned |
| `LancamentoServico.NomeOu` | Tesouraria.Application/Services/LancamentoService.cs:49-53 | a related name, or the fallback when the reference or its record is missing |
| `LancamentoServico.ProjetarLista` | Tesouraria.Application/Services/LancamentoService.cs:30-54 | the list DTO copies every entry field, the paid amount always present; missing category or cost-center names become "N/A"; the person is the member's name or "Anônimo" for receipts, and the supplier's name or "Diversos" for expenses |
| `LancamentoServico.ObterTodos` | Tesouraria.Application/Services/LancamentoService.cs:26-55 | one DTO per row of the period query, in its order |
| `LancamentoServico.ObterTodosNoPeriodo` | Tesouraria.Application/Services/LancamentoService.cs:26-55 | every listed DTO is due in the period and has a paid amount, and the list is sorted by due date |
| `LancamentoServico.ObterPorId` | Tesouraria.Application/Services/LancamentoService.cs:113-139 | absent iff no entry has the id; otherwise the DTO carries the entry's fields, with empty names for a missing category or cost center and no person name |
| `LancamentoServico.SaldoPeriodoAssinado` | Tesouraria.Application/Services/LancamentoService.cs:105-111 | the period balance equals the sum, over entries Pago in the period, of the paid amount counted up for receipts and down for expenses |
| `LancamentoServico.ObterSaldoPeriodo` | Tesouraria.Application/Services/LancamentoService.cs:105-111 | realized receipts minus realized expenses in the period; a specification function, stated by `LancamentoServico.SaldoPeriodoAssinado` |
| `LancamentoServico.BaixaNoRealizado` | Tesouraria.Application/Services/LancamentoService.cs:83-92 | settling a Pendente entry raises the realized total of its type by the paid amount when paid inside the period, and leaves the forecast alone |
| `LancamentoServico.CancelamentoNoPrevisto` | Tesouraria.Application/Services/LancamentoService.cs:94-103 | cancelling a Pendente entry removes exactly its share from the forecast and leaves the realized total alone |
| `LancamentoServico.GravarInsercao` | Tesouraria.Infrastructure/Repositories/LancamentoRepository.cs:26-29 | committing one staged insertion appends the entry under the next key |
| `LancamentoServico.GravarAtualizacao` | Tesouraria.Infrastructure/Repositories/LancamentoRepository.cs:31-35 | committing one staged update of an existing row replaces that row and keeps the next key |
| `LancamentoServico.EfeitoRegistro` | Tesouraria.Application/Services/LancamentoService.cs:56-81 | registration fails for an unknown category, then for a category of the other type, then on validation, and then changes nothing; otherwise it appends exactly one consistent Pendente entry with the dto's data, returns its new id, and drops the dto's payment form and note |
| `LancamentoServico.EfeitoBaixa` | Tesouraria.Application/Services/LancamentoService.cs:83-92 | an unknown id or a Cancelado entry fails with nothing changed; otherwise only that row changes, to `Baixa` with the dto's amount and date |
| `LancamentoServico.EfeitoCancelamento` | Tesouraria.Application/Services/LancamentoService.cs:94-103 | an unknown id or a Pago entry fails with nothing changed; otherwise only that row changes, to Cancelado |
| `LancamentoServico.LancamentoService.constructor` | Tesouraria.Application/Services/LancamentoService.cs:18-24 | the service holds the given repositories |
| `LancamentoServico.LancamentoService.RegistrarAsync` | Tesouraria.Application/Services/LancamentoService.cs:56-81 | the result and the stored rows are those of `EfeitoRegistro` |
| `LancamentoServico.LancamentoService.BaixarAsync` | Tesouraria.Application/Services/LancamentoService.cs:83-92 | the result and the stored rows are those of `EfeitoBaixa`, and the next key is kept |
| `LancamentoServico.LancamentoService.CancelarAsync` | Tesouraria.Application/Services/LancamentoService.cs:94-103 | the result and the stored rows are those of `EfeitoCancelamento`, and the next key is kept |
| `ListaLancamentos.CentroCustoDoFiltro` | Tesouraria.Desktop/ViewModels/LancamentoListaViewModel.cs:256 | the "TODOS" choice (0) and no choice are sent as no filter; any other choice is sent as is |
| `ListaLancamentos.SaldosAssinados` | Tesouraria.Desktop/ViewModels/LancamentoListaViewModel.cs:263-285 | each balance is the sum over items of the signed share: a non-cancelled item counts its original amount (forecast) or its settled amount (realized), up for receipts and down for expenses |
| `ListaLancamentos.CanceladosNaoContam` | Tesouraria.Desktop/ViewModels/LancamentoListaViewModel.cs:271 | dropping the Cancelado items changes neither balance |
| `ListaLancamentos.SaldoPrevistoDoRepositorio` | Tesouraria.Desktop/ViewModels/LancamentoListaViewModel.cs:263-284 | over the service's period list, the forecast balance equals the repository's forecast receipts minus forecast expenses |
| `ListaLancamentos.PrevistaDoRepositorio` | Tesouraria.Desktop/ViewModels/LancamentoListaViewModel.cs:273-274 | over the service's period list, the screen's forecast sum of a type equals the repository's forecast total of that type |
| `ListaLancamentos.Botoes` | Tesouraria.Desktop/ViewModels/LancamentoListaViewModel.cs:179-188 | settle and reverse are never both enabled; cancel is enabled iff one of them is; with no selection or a Cancelado one, none is |
| `ListaLancamentos.PodeBaixar` | Tesouraria.Desktop/ViewModels/LancamentoListaViewModel.cs:179-180 | settle is enabled for a Pendente selection; a predicate, stated by `ListaLancamentos.Botoes` and `ListaLancamentos.BotoesNaTabela` |
| `ListaLancamentos.PodeEstornar` | Tesouraria.Desktop/ViewModels/LancamentoListaViewModel.cs:183-184 | reverse is enabled for a Pago selection; a predicate, stated by `ListaLancamentos.Botoes` |
| `ListaLancamentos.PodeCancelar` | Tesouraria.Desktop/ViewModels/LancamentoListaViewModel.cs:187-188 | cancel is enabled for any selection not Cancelado; a predicate, stated by `ListaLancamentos.Botoes` and `ListaLancamentos.BotoesNaTabela` |
| `ListaLancamentos.DtoBaixa` | Tesouraria.Desktop/ViewModels/LancamentoListaViewModel.cs:334-339 | settling from the list pays the item's original amount at the current time |
| `ListaLancamentos.BotoesNaTabela` | Tesouraria.Desktop/ViewModels/LancamentoListaViewModel.cs:179-188 | when the selection's status matches the stored row, an enabled settle succeeds and pays the original amount, and cancel on a Pago item is rejected with nothing changed |
| `ListaLancamentos.LancamentoListaViewModel.Filtro` | Tesouraria.Desktop/ViewModels/LancamentoListaViewModel.cs:252-259 | the filter sent to the report carries the screen's dates and flags and the cost center as `CentroCustoDoFiltro` sends it |
| `ListaLancamentos.LancamentoListaViewModel.constructor` | Tesouraria.Desktop/ViewModels/LancamentoListaViewModel.cs:145-193 | the screen starts with the initial date range, both flags off and no selection; the cost centers are "TODOS" then the repository's sorted by name, with "TODOS" (0) chosen, so the filter has no cost center; the list and balances are those of the first load, or empty and zero when the report fails |
| `ListaLancamentos.LancamentoListaViewModel.InicializarDatas` | Tesouraria.Desktop/ViewModels/LancamentoListaViewModel.cs:195-231 | a saved range from year 2000 on is restored; otherwise the range is the first through the last day of the current month; nothing else changes |
| `ListaLancamentos.LancamentoListaViewModel.CarregarListasAuxiliares` | Tesouraria.Desktop/ViewModels/LancamentoListaViewModel.cs:233-244 | the cost-center list becomes "TODOS" followed by the repository's cost centers in name order, the choice becomes 0, which sends the same filter as no choice, and nothing else changes |
| `ListaLancamentos.CentroCustoTodos` | Tesouraria.Desktop/ViewModels/LancamentoListaViewModel.cs:239 | the "TODOS" entry: id 0, that name, active |
| `ListaLancamentos.LancamentoListaViewModel.CarregarDados` | Tesouraria.Desktop/ViewModels/LancamentoListaViewModel.cs:246-291 | the list becomes the report's items in order, and the balances become the forecast and realized balances of those items; if the report fails, the list is left empty and the balances keep their old values |
| `ListaLancamentos.LancamentoListaViewModel.BaixarLancamento` | Tesouraria.Desktop/ViewModels/LancamentoListaViewModel.cs:325-345 | without a selection or confirmation the balances are unchanged; otherwise the store changes as `EfeitoBaixa` with `DtoBaixa`; a refusal keeps list and balances; on success the list is the reloaded query and the balances are `SaldoPrevistoDe` and `SaldoRealizadoDe` of it, or, when the query fails, the list is empty and the balances are kept; the filter, the selection and the cost centers never change |
| `ListaLancamentos.LancamentoListaViewModel.Cancelar` | Tesouraria.Desktop/ViewModels/LancamentoListaViewModel.cs:361-373 | without a selection or confirmation the balances are unchanged; otherwise the store changes as `EfeitoCancelamento`; a refusal keeps list and balances; on success the list is the reloaded query and the balances are `SaldoPrevistoDe` and `SaldoRealizadoDe` of it, or, when the query fails, the list is empty and the balances are kept; the filter, the selection and the cost centers never change |
| `ListaLancamentos.MesCorrente` | Tesouraria.Desktop/ViewModels/LancamentoListaViewModel.cs:205-211 | the default range starts on day 1, ends on the month's last day at midnight, and holds every day of the current month taken at midnight |
| `ListaLancamentos.MesCorrenteTerminaMeiaNoite` | Tesouraria.Desktop/ViewModels/LancamentoListaViewModel.cs:205-211 | a moment of the current month lies in the default range exactly when it falls before the last day or at that day's midnight |
| `Relatorio.ValorRelatorio` | Tesouraria.Desktop/Services/RelatorioPdfService.cs:41-42 | an item is reported with its paid amount when present, else its original amount |
| `Relatorio.TotaisDe` | Tesouraria.Desktop/Services/RelatorioPdfService.cs:41-43 | the grand balance is the receipts total minus the expenses total |
| `Relatorio.TotaisPorItem` | Tesouraria.Desktop/Services/RelatorioPdfService.cs:41-43 | each type's total is the sum of per-item shares of that type, and the balance is the sum of signed amounts: every item counts once, on its own side |
| `Relatorio.SemRepeticao` | Tesouraria.Desktop/Services/RelatorioPdfService.cs:29-32 | the distinct keys: no repeats, and exactly the keys that occur |
| `Relatorio.ChavesOrdenadas` | Tesouraria.Desktop/Services/RelatorioPdfService.cs:29-38 | the group keys: each key of the items exactly once, in ascending ordinal order |
| `Relatorio.Agrupar` | Tesouraria.Desktop/Services/RelatorioPdfService.cs:29-38 | one group per ordered key, holding exactly the items with that key, in their order |
| `Relatorio.PorCentroCusto` | Tesouraria.Desktop/Services/RelatorioPdfService.cs:29-32 | the grouping by cost-center name, in key order; a specification function, stated by `Relatorio.AgruparParticiona`, `Relatorio.GruposFecham` and `Relatorio.ResumosConcordam` |
| `Relatorio.PorCategoria` | Tesouraria.Desktop/Services/RelatorioPdfService.cs:34-38 | the grouping by category name, in key order; a specification function, stated by `Relatorio.AgruparParticiona` and `Relatorio.ResumosConcordam` |
| `Relatorio.AgruparParticiona` | Tesouraria.Desktop/Services/RelatorioPdfService.cs:29-38 | every item lies in exactly one group, no group is empty, and the keys are distinct and ascending |
| `Relatorio.GruposFechamTipo` | Tesouraria.Desktop/Services/RelatorioPdfService.cs:171-191 | the groups' subtotals of one type add up to the grand total of that type |
| `Relatorio.GruposFecham` | Tesouraria.Desktop/Services/RelatorioPdfService.cs:171-191 | summed over all groups, the per-group receipts, expenses and balances equal the grand totals |
| `Relatorio.ResumosConcordam` | Tesouraria.Desktop/Services/RelatorioPdfService.cs:220-241 | the cost-center summary and the category summary both add up to the grand totals, so they agree, as the comment at line 233 says |
| `Relatorio.LinhasDetalhe` | Tesouraria.Desktop/Services/RelatorioPdfService.cs:116 | a group's detail rows are its items reordered by due date |
| `Relatorio.TextoFiltro` | Tesouraria.Desktop/Services/RelatorioPdfService.cs:63 | the header names a specific cost center iff the id is present and above 0, else it reads "all cost centers" |
| `Extrato.ParseDecimal` | Tesouraria.Desktop/Services/ExtratoService.cs:188 | the subset of invariant `decimal.Parse` the statement can reach: never negative |
| `Extrato.ConverterValorSeguro` | Tesouraria.Desktop/Services/ExtratoService.cs:175-207 | with the last comma after the last dot, dots are dropped and the comma is the decimal point; with the last dot after the last comma, commas are dropped; with neither, the text parses as is; a parse failure gives 0 |
| `Extrato.ConverterComPonto` | Tesouraria.Desktop/Services/ExtratoService.cs:191-196 | "d.ff" reads as d units and ff cents |
| `Extrato.ConverterComVirgula` | Tesouraria.Desktop/Services/ExtratoService.cs:184-189 | "d,ff" reads as d units and ff cents |
| `Extrato.ConverterMilharComVirgula` | Tesouraria.Desktop/Services/ExtratoService.cs:184-189 | Brazilian format "m.ttt,ff" reads as mttt units and ff cents |
| `Extrato.ConverterMilharComPonto` | Tesouraria.Desktop/Services/ExtratoService.cs:191-196 | American format "m,ttt.ff" reads as mttt units and ff cents |
| `Extrato.ConverterDoisPontos` | Tesouraria.Desktop/Services/ExtratoService.cs:191-206 | with two dots and no comma the parse fails and the amount is 0 |
| `Extrato.ConverterTextoValor` | Tesouraria.Desktop/Services/ExtratoService.cs:175-207 | round trip: any amount in cents written with two decimals and either separator reads back as that amount |
| `Extrato.ValorDosDigitos` | Tesouraria.Desktop/Services/ExtratoService.cs:188 | the digits written for a number read back as that number |
| `Extrato.FimDoValor` | Tesouraria.Desktop/Services/ExtratoService.cs:136 | locates the `\s*[CD]\s*$` tail: the mark is C or D, only blanks surround it, and the amount ends just before those blanks |
| `Extrato.PrimeiroInicio` | Tesouraria.Desktop/Services/ExtratoService.cs:136 | the leftmost start from which the amount pattern reaches the given end, or none |
| `Extrato.CasarCom` | Tesouraria.Desktop/Services/ExtratoService.cs:136-148 | a match is a slice of the line in the amount format, followed by only blanks around a C or D mark to the end of the line, and no earlier start matches up to the same end (leftmost match) |
| `Extrato.CasarValorComoEscrito` | Tesouraria.Desktop/Services/ExtratoService.cs:136-148 | the program's pattern `\d{1,3}(?:[.,]\d{3})*[.,]\d{2}\s*[CD]\s*$`: a match is a slice of the line that the pattern as written accepts, with a C or D mark |
| `Extrato.CasarValor` | Tesouraria.Desktop/Services/ExtratoService.cs:134-148 | the pattern the comment at line 135 describes: a match is a slice of the line in the corrected format, with a C or D mark |
| `Extrato.CasamentoEm` | Tesouraria.Desktop/Services/ExtratoService.cs:136 | the end of the amount and its leftmost start found by the matcher give a slice in the format, followed by the C/D tail, with no earlier start reaching the same end |
| `Extrato.CasarComMaisAEsquerda` | Tesouraria.Desktop/Services/ExtratoService.cs:136-148 | whenever some slice ending in a digit matches, the matcher succeeds, starting at or before that slice and ending where it ends |
| `Extrato.CasarComAposBranco` | Tesouraria.Desktop/Services/ExtratoService.cs:136-148 | an amount after a blank (or at the start of the line) and followed by " C" or " D" is matched exactly |
| `Extrato.CasarValorAposBranco` | Tesouraria.Desktop/Services/ExtratoService.cs:134-148 | with the corrected pattern, an amount after a blank and followed by " C" or " D" is matched whole |
| `Extrato.CasarValorComoEscritoAposBranco` | Tesouraria.Desktop/Services/ExtratoService.cs:136-148 | with the pattern as written, an amount it accepts after a blank and followed by " C" or " D" is matched whole |
| `Extrato.MilharesNoLivre` | Tesouraria.Desktop/Services/ExtratoService.cs:134-136 | the corrected pattern accepts every integer part the pattern as written accepts |
| `Extrato.CasarValorTextoValor` | Tesouraria.Desktop/Services/ExtratoService.cs:136-150 | with the corrected pattern, any amount written after a blank with its mark is matched whole and read back exactly |
| `Extrato.ComoEscritoLeMil` | Tesouraria.Desktop/Services/ExtratoService.cs:136 | as written, the line "1000.20 C" matches "000.20" from position 1, read as 0.20 |
| `Extrato.MilNaoEscrito` | Tesouraria.Desktop/Services/ExtratoService.cs:136 | as written, the pattern does not accept "1000.20", which the comment at line 135 says it accepts |
| `Extrato.CorrigidoLeMil` | Tesouraria.Desktop/Services/ExtratoService.cs:134-136 | with the corrected pattern, "1000.20 C" matches "1000.20" whole, read as 1000.20 |
| `Extrato.LinhaHistorico` | Tesouraria.Desktop/Services/ExtratoService.cs:158-169 | blank lines, lines starting "***", and "DOC.:" lines whose rest is "Pix" (ignoring case) give no history line; a line with none of the prefixes is kept as it is; what is kept is never blank |
| `Extrato.LinhaHistoricoPix` | Tesouraria.Desktop/Services/ExtratoService.cs:160-163 | "DOC.: Pix" is dropped |
| `Extrato.LinhaHistoricoPixMaiusculo` | Tesouraria.Desktop/Services/ExtratoService.cs:160-163 | the prefix and "Pix" are compared ignoring case: "doc.:PIX" is dropped |
| `Extrato.LinhaHistoricoDoc` | Tesouraria.Desktop/Services/ExtratoService.cs:160-164 | any other DOC.: line keeps what follows the prefix, trimmed |
| `Extrato.LinhaHistoricoRem` | Tesouraria.Desktop/Services/ExtratoService.cs:166-167 | "REM.: JOSE" becomes "REM: JOSE" |
| `Extrato.LerValor` | Tesouraria.Desktop/Services/ExtratoService.cs:142-156 | for any amount format: while no amount was read, a matching line sets the amount and the C/D type and is cut, trimmed, before the match; once an amount is read, or without a match, the line passes unchanged |
| `Extrato.PassoBloco` | Tesouraria.Desktop/Services/ExtratoService.cs:138-170 | one line of a block: `LerValor`, then the history line of what is left; a specification function, stated by `Extrato.PassoComValor`, `Extrato.HistoricoComValor` and `Extrato.HistoricoSemValor` |
| `Extrato.PercorrerBloco` | Tesouraria.Desktop/Services/ExtratoService.cs:138-170 | the `foreach` over the block's lines; a specification function, stated by `Extrato.PercorrerBlocoConcat`, `Extrato.ValorFixo`, `Extrato.PrimeiroValorBloco` and `Extrato.HistoricoSemValor` |
| `Extrato.BlocoFinal` | Tesouraria.Desktop/Services/ExtratoService.cs:130-172 | finishing a block, for any amount format, keeps the transaction's date; its amount and history are stated by `Extrato.BlocoComValor` and `Extrato.BlocoSemValor` |
| `Extrato.ProcessarBlocoFinal` | Tesouraria.Desktop/Services/ExtratoService.cs:130-172 | the loop over the block's lines, with the pattern as written, computes `BlocoFinal` for the format `ValorComoEscrito` |
| `Extrato.PercorrerBlocoConcat` | Tesouraria.Desktop/Services/ExtratoService.cs:138-170 | reading a block line by line composes over concatenation |
| `Extrato.ValorFixo` | Tesouraria.Desktop/Services/ExtratoService.cs:142 | once the amount is not 0, later lines change neither amount nor type |
| `Extrato.SemValorAntes` | Tesouraria.Desktop/Services/ExtratoService.cs:142-156 | for any amount format, lines with no amount match leave amount and type as they were |
| `Extrato.PrimeiroValor` | Tesouraria.Desktop/Services/ExtratoService.cs:138-156 | for any amount format, the amount and type come from the first line with a match, when it reads as non-zero |
| `Extrato.Mantidas` | Tesouraria.Desktop/Services/ExtratoService.cs:169 | the kept history lines: never more than the lines, none blank |
| `Extrato.HistoricoComValor` | Tesouraria.Desktop/Services/ExtratoService.cs:158-170 | once the amount is read, the history grows by exactly the kept lines, in order |
| `Extrato.HistoricoSemBrancos` | Tesouraria.Desktop/Services/ExtratoService.cs:169 | the history never holds a blank part |
| `Extrato.HistoricoSemValor` | Tesouraria.Desktop/Services/ExtratoService.cs:142-170 | when no line of a block matches, every line reaches the history filter: the history grows by exactly the kept lines and nothing else changes |
| `Extrato.BlocoSemValor` | Tesouraria.Desktop/Services/ExtratoService.cs:130-172 | a block with no match finishes with amount and type as they were and the history the kept lines joined by " \| " and trimmed |
| `Extrato.PassoComValor` | Tesouraria.Desktop/Services/ExtratoService.cs:142-169 | the first matching line sets amount and type and adds the kept part of the text before the match to the history |
| `Extrato.DepoisDoValor` | Tesouraria.Desktop/Services/ExtratoService.cs:142-169 | once an amount is read, later lines only add their kept history lines |
| `Extrato.AteOPrimeiroValor` | Tesouraria.Desktop/Services/ExtratoService.cs:138-169 | reading up to and including the first match gives the kept lines before it, then the kept text before the match, with the matched amount and type |
| `Extrato.BlocoComValor` | Tesouraria.Desktop/Services/ExtratoService.cs:130-172 | a block whose first match (after lines with none) reads as non-zero finishes with that amount and type, and the history the kept lines before it, the kept text before the match and the kept lines after it, joined by " \| " and trimmed |
| `Extrato.BlocoMilComoEscrito` | Tesouraria.Desktop/Services/ExtratoService.cs:136-171 | with the pattern as written, the block "1000.20 C" finishes as 0.20 with the history "1" |
| `Extrato.BlocoMilCorrigido` | Tesouraria.Desktop/Services/ExtratoService.cs:134-171 | with the corrected pattern, the block "1000.20 C" finishes as 1000.20 with an empty history |
| `Extrato.DataDaLinha` | Tesouraria.Desktop/Services/ExtratoService.cs:77-82 | a dd/MM prefix gives a valid date of the statement's year, or the default date when the day does not exist |
| `Extrato.Ignorada` | Tesouraria.Desktop/Services/ExtratoService.cs:48-51 | the skipped lines: blank, the SICOOB header, the "EXTRATO CONTA CORRENTE" title, and SALDO lines; a predicate, whose effect is stated by `Extrato.PassoPaginaCasos` and `Extrato.LinhaIgnoradaRemovivel` |
| `Extrato.ComecaComData` | Tesouraria.Desktop/Services/ExtratoService.cs:53 | a line starting with `dd/MM`; a predicate, whose effect is stated by `Extrato.PassoPaginaCasos` |
| `Extrato.Emitir` | Tesouraria.Desktop/Services/ExtratoService.cs:60-62 | a transaction is appended only when its amount is above 0 |
| `Extrato.Fechar` | Tesouraria.Desktop/Services/ExtratoService.cs:57-65 | for any amount format, closing finishes the open transaction's block and emits it; with none open, nothing changes |
| `Extrato.PassoPaginaCasos` | Tesouraria.Desktop/Services/ExtratoService.cs:44-90 | skipped lines change nothing; a date line closes the open transaction and opens a new one, or none when the rest starts with SALDO; other lines join the open block, or are ignored when none is open |
| `Extrato.PassoPagina` | Tesouraria.Desktop/Services/ExtratoService.cs:44-90 | one line of a page for any amount format; a specification function, stated by `Extrato.PassoPaginaCasos` and computed by `Extrato.LerLinha` |
| `Extrato.PercorrerPagina` | Tesouraria.Desktop/Services/ExtratoService.cs:44-90 | the line loop of a page; a specification function, stated by `Extrato.PercorrerPaginaConcat` and `Extrato.PaginaSoAcrescenta` |
| `Extrato.LerPaginaDe` | Tesouraria.Desktop/Services/ExtratoService.cs:40-97 | a page: the line loop and the final close; a specification function, computed by `Extrato.LerPagina` and stated by `Extrato.PaginaDesloca` |
| `Extrato.LerPaginas` | Tesouraria.Desktop/Services/ExtratoService.cs:14-101 | the whole statement, page after page; a specification function, computed by `Extrato.LerArquivo` and stated by `Extrato.LerPaginasPorPagina` and `Extrato.TransacoesPositivas` |
| `Extrato.FecharBloco` | Tesouraria.Desktop/Services/ExtratoService.cs:57-65 | the imperative close computes `Fechar` with the pattern as written |
| `Extrato.LerLinha` | Tesouraria.Desktop/Services/ExtratoService.cs:44-90 | one pass of the line loop computes one step `PassoPagina` of the page reader, with the pattern as written |
| `Extrato.LerPagina` | Tesouraria.Desktop/Services/ExtratoService.cs:40-97 | the page loop and its final close compute `LerPaginaDe` with the pattern as written |
| `Extrato.LerArquivo` | Tesouraria.Desktop/Services/ExtratoService.cs:14-101 | the reader over all pages computes `LerPaginas` with the pattern as written |
| `Extrato.PercorrerPaginaConcat` | Tesouraria.Desktop/Services/ExtratoService.cs:44-90 | reading a page line by line composes over concatenation |
| `Extrato.LinhaIgnoradaRemovivel` | Tesouraria.Desktop/Services/ExtratoService.cs:48-51 | removing a skipped line anywhere does not change the result |
| `Extrato.PaginaSoAcrescenta` | Tesouraria.Desktop/Services/ExtratoService.cs:44-97 | reading a page only appends to the emitted list, and only positive amounts |
| `Extrato.TransacoesPositivas` | Tesouraria.Desktop/Services/ExtratoService.cs:14-101 | every transaction read from a statement has an amount above 0 |
| `Extrato.PaginaDesloca` | Tesouraria.Desktop/Services/ExtratoService.cs:44-97 | what a page emits does not depend on what was emitted before it |
| `Extrato.LerPaginasPorPagina` | Tesouraria.Desktop/Services/ExtratoService.cs:24-98 | the statement's transactions are each page's transactions, page after page, in line order |
| `ImportacaoExtrato.FiltrarOrdenado` | Tesouraria.Desktop/ViewModels/ImportacaoExtratoViewModel.cs:108-114 | picking items out of a name-ordered list keeps name order |
| `ImportacaoExtrato.PorNome` | Tesouraria.Desktop/ViewModels/ImportacaoExtratoViewModel.cs:108 | the categories reordered by name |
| `ImportacaoExtrato.SepararPorTipo` | Tesouraria.Desktop/ViewModels/ImportacaoExtratoViewModel.cs:108-114 | the loop sends receipt categories to one list and all others to the other, in order |
| `ImportacaoExtrato.ParticaoCategorias` | Tesouraria.Desktop/ViewModels/ImportacaoExtratoViewModel.cs:104-114 | the two lists split the categories: together they hold each category exactly once, one holds exactly the receipt ones, the other all the rest, both in name order |
| `ImportacaoExtrato.DtoImportado` | Tesouraria.Desktop/ViewModels/ImportacaoExtratoViewModel.cs:163-181 | type C becomes a receipt with the receipt default category, any other type an expense with the expense default; the dto takes history, amount and date, Pix, the default cost center and user 1; a missing default fails |
| `ImportacaoExtrato.Importar` | Tesouraria.Desktop/ViewModels/ImportacaoExtratoViewModel.cs:159-185 | the count of imported transactions never exceeds the transactions |
| `ImportacaoExtrato.ImportarAcrescenta` | Tesouraria.Desktop/ViewModels/ImportacaoExtratoViewModel.cs:159-185 | the import appends exactly one Pendente entry per imported transaction, in order, under consecutive ids, each with the transaction's history, amount, date and type, and keeps the earlier rows |
| `ImportacaoExtrato.ImportarConta` | Tesouraria.Desktop/ViewModels/ImportacaoExtratoViewModel.cs:159-188 | without an error every transaction is imported; with one, the import stops short of the end |
| `ImportacaoExtrato.ImportarComPadroes` | Tesouraria.Desktop/ViewModels/ImportacaoExtratoViewModel.cs:89-92 | with all three defaults chosen, as the command guard demands, only a rejection by the service can stop the import |
| `ImportacaoExtrato.CopiarTransacoes` | Tesouraria.Desktop/ViewModels/ImportacaoExtratoViewModel.cs:136-137 | the list is cleared and refilled with the items read, in order |
| `ImportacaoExtrato.ImportacaoExtratoViewModel.constructor` | Tesouraria.Desktop/ViewModels/ImportacaoExtratoViewModel.cs:75-95 | the screen starts with no transactions and no defaults chosen, and with the initial load done: receipt and non-receipt categories in name order, cost centers sorted by name |
| `ImportacaoExtrato.ImportacaoExtratoViewModel.CarregarDadosIniciais` | Tesouraria.Desktop/ViewModels/ImportacaoExtratoViewModel.cs:97-120 | the category lists become the receipt and non-receipt categories in name order, and the cost centers are sorted by name |
| `ImportacaoExtrato.ImportacaoExtratoViewModel.SelecionarArquivo` | Tesouraria.Desktop/ViewModels/ImportacaoExtratoViewModel.cs:122-149 | a chosen file replaces the transactions with those the reader, with the pattern as written, reads from it; a cancelled dialog keeps them |
| `ImportacaoExtrato.ImportacaoExtratoViewModel.SalvarNoBanco` | Tesouraria.Desktop/ViewModels/ImportacaoExtratoViewModel.cs:151-195 | without confirmation nothing changes; otherwise the store changes as `Importar`, and the list is cleared only when every transaction was registered |
| `LancamentoCadastro.TipoSelecionado` | Tesouraria.Desktop/ViewModels/LancamentoCadastroViewModel.cs:123 | the selected type is Receita iff the receipt option is on |
| `LancamentoCadastro.DoTipo` | Tesouraria.Desktop/ViewModels/LancamentoCadastroViewModel.cs:125 | exactly the cached categories of the type |
| `LancamentoCadastro.DoTipoParticao` | Tesouraria.Desktop/ViewModels/LancamentoCadastroViewModel.cs:120-127 | the two types' selections together hold each cached category exactly as often as the cache |
| `LancamentoCadastro.PreValidacao` | Tesouraria.Desktop/ViewModels/LancamentoCadastroViewModel.cs:134-143 | the form stops an amount not above 0 first, then a blank description, and passes everything else |
| `LancamentoCadastro.PreValidacaoDominio` | Tesouraria.Desktop/ViewModels/LancamentoCadastroViewModel.cs:134-149 | whatever the form stops the entry's own validation also rejects; what it passes can fail only on the category or cost-center id; the two name different errors first |
| `LancamentoCadastro.DtoInicial` | Tesouraria.Desktop/ViewModels/LancamentoCadastroViewModel.cs:82-86 | the form starts as an expense due today |
| `LancamentoCadastro.LancamentoCadastroViewModel.constructor` | Tesouraria.Desktop/ViewModels/LancamentoCadastroViewModel.cs:68-96 | the form starts as an expense due today with the expense flag on, and with the initial load done: the active cost centers and categories, and the categories filtered to expenses |
| `LancamentoCadastro.LancamentoCadastroViewModel.FiltrarCategorias` | Tesouraria.Desktop/ViewModels/LancamentoCadastroViewModel.cs:120-127 | the loop leaves exactly the cached categories of the selected type, in cache order, and changes nothing else |
| `LancamentoCadastro.LancamentoCadastroViewModel.SetIsReceita` | Tesouraria.Desktop/ViewModels/LancamentoCadastroViewModel.cs:37-49 | a new value sets the dto's type to match, the expense flag to its negation, and refilters; the same value changes nothing |
| `LancamentoCadastro.LancamentoCadastroViewModel.CarregarListas` | Tesouraria.Desktop/ViewModels/LancamentoCadastroViewModel.cs:98-118 | the active cost centers are appended, the active categories cached and the selection refiltered |
| `LancamentoCadastro.LancamentoCadastroViewModel.SalvarAsync` | Tesouraria.Desktop/ViewModels/LancamentoCadastroViewModel.cs:129-158 | a stopped form makes no service call and changes nothing; otherwise the user becomes 1 and the store changes as `EfeitoRegistro` |
| `LancamentoCadastro.SalvarRegistraUsuario1` | Tesouraria.Desktop/ViewModels/LancamentoCadastroViewModel.cs:134-149 | a save the form lets through registers, when accepted, a Pendente entry of user 1 with the form's data, and is never rejected for description or amount |
| `Fornecedores.PrimeiroComCnpj` | Tesouraria.Infrastructure/Repositories/FornecedorRepository.cs:58-63 | the first stored supplier with the CNPJ, or none iff no supplier has it |
| `Fornecedores.SalvarMudancas` | Tesouraria.Infrastructure/Repositories/FornecedorRepository.cs:25-30 | saving writes every tracked supplier over its stored row and changes nothing else |
| `Fornecedores.SalvarLimpo` | Tesouraria.Infrastructure/Repositories/FornecedorRepository.cs:25-30 | with no pending edits, saving changes nothing |
| `Fornecedores.IndiceComId` | Tesouraria.Infrastructure/Repositories/FornecedorRepository.cs:52-55 | the stored position of an id, or none iff no supplier has it |
| `Fornecedores.Buscar` | Tesouraria.Infrastructure/Repositories/FornecedorRepository.cs:52-55 | `Find` returns the tracked copy or the stored row, and starts tracking it; an unknown id returns nothing and changes nothing |
| `Fornecedores.Inserir` | Tesouraria.Infrastructure/Repositories/FornecedorRepository.cs:18-23 | adding saves the pending edits and appends the supplier under the next key |
| `Fornecedores.Reescrever` | Tesouraria.Infrastructure/Repositories/FornecedorRepository.cs:25-30 | updating tracks the supplier and saves |
| `Fornecedores.Remover` | Tesouraria.Infrastructure/Repositories/FornecedorRepository.cs:32-41 | an unknown id changes nothing; otherwise the supplier stops being tracked |
| `Fornecedores.Copiar` | Tesouraria.Application/Services/FornecedorService.cs:59-63 | the edit copies company name, trade name, CNPJ, e-mail and phone onto the stored supplier, keeping its id and active flag |
| `Fornecedores.EfeitoCadastro` | Tesouraria.Application/Services/FornecedorService.cs:17-35 | a null or empty company name, then a null or empty CNPJ, then an existing CNPJ are rejected with nothing changed; otherwise the supplier is inserted |
| `Fornecedores.EfeitoEdicaoComoEscrita` | Tesouraria.Application/Services/FornecedorService.cs:49-80 | `EditarFornecedor` as written (copy, then check); a specification function, stated by `Fornecedores.EdicaoComoEscritaRecusada` and `Fornecedores.EdicaoRecusadaDuplica` |
| `Fornecedores.EfeitoEdicao` | Tesouraria.Application/Services/FornecedorService.cs:49-80 | `EditarFornecedor` with the check before the copy; a specification function, stated by `Fornecedores.EdicaoPreserva` and `Fornecedores.EdicaoAceita` |
| `Fornecedores.EdicaoComoEscritaRecusada` | Tesouraria.Application/Services/FornecedorService.cs:49-80 | the code as written reports the same outcome as the corrected edit; but a rejected edit leaves the changed supplier tracked, with the new CNPJ, while the stored rows are unchanged |
| `Fornecedores.EfeitoRemocao` | Tesouraria.Application/Services/FornecedorService.cs:83-89 | removal never fails and deletes with no checks |
| `Fornecedores.CadastroPreserva` | Tesouraria.Application/Services/FornecedorService.cs:17-35 | registration keeps the context consistent: unique ids and CNPJs, and no pending edits |
| `Fornecedores.SalvarUmaMudanca` | Tesouraria.Infrastructure/Repositories/FornecedorRepository.cs:25-30 | saving one tracked change rewrites exactly that row |
| `Fornecedores.SubstituirPreserva` | Tesouraria.Application/Services/FornecedorService.cs:68-79 | replacing a supplier with one whose CNPJ no other supplier holds keeps the context consistent |
| `Fornecedores.CnpjLivre` | Tesouraria.Application/Services/FornecedorService.cs:68-73 | when the first holder of the CNPJ is missing or is the supplier itself, no other supplier holds it |
| `Fornecedores.EdicaoPreserva` | Tesouraria.Application/Services/FornecedorService.cs:49-80 | the corrected edit keeps CNPJs unique, whether it is accepted or rejected |
| `Fornecedores.EdicaoAceita` | Tesouraria.Application/Services/FornecedorService.cs:49-80 | an accepted edit rewrites exactly the edited supplier's row, and its CNPJ is free |
| `Fornecedores.RetirarPreserva` | Tesouraria.Infrastructure/Repositories/FornecedorRepository.cs:32-41 | removing a row keeps the context consistent |
| `Fornecedores.RemocaoPreserva` | Tesouraria.Application/Services/FornecedorService.cs:83-89 | removal keeps the context consistent |
| `Fornecedores.EdicaoRecusadaDuplica` | Tesouraria.Application/Services/FornecedorService.cs:59-73 | as written: after an edit rejected for a CNPJ held by another supplier, the next accepted registration on the same context stores two suppliers with one CNPJ |
| `Fornecedores.RecusaComoEscrita` | Tesouraria.Application/Services/FornecedorService.cs:52-73 | a rejected edit found the supplier and another one holding the CNPJ, and left only the tracked copy changed |
| `Fornecedores.EdicaoExemploRecusada` | Tesouraria.Application/Services/FornecedorService.cs:68-73 | in the example, giving supplier 2 supplier 1's CNPJ is rejected |
| `Fornecedores.CadastroExemploAceito` | Tesouraria.Application/Services/FornecedorService.cs:17-35 | in the example, registering a supplier with a new CNPJ is accepted |
| `Fornecedores.EdicaoRecusadaDuplicaExemplo` | Tesouraria.Application/Services/FornecedorService.cs:59-73 | the concrete run: the rejected edit followed by that registration stores a duplicate CNPJ |
| `Fornecedores.FornecedorRepository.constructor` | Tesouraria.Infrastructure/Repositories/FornecedorRepository.cs:13-16 | a repository over the given rows, tracking nothing |
| `Fornecedores.FornecedorRepository.Adicionar` | Tesouraria.Infrastructure/Repositories/FornecedorRepository.cs:18-23 | the context becomes `Inserir` of the old one |
| `Fornecedores.FornecedorRepository.Atualizar` | Tesouraria.Infrastructure/Repositories/FornecedorRepository.cs:25-30 | the context becomes `Reescrever` of the old one |
| `Fornecedores.FornecedorRepository.Excluir` | Tesouraria.Infrastructure/Repositories/FornecedorRepository.cs:32-41 | the context becomes `Remover` of the old one |
| `Fornecedores.FornecedorRepository.ObterPorId` | Tesouraria.Infrastructure/Repositories/FornecedorRepository.cs:52-55 | the result and the new context are `Buscar` of the old one |
| `Fornecedores.FornecedorRepository.ObterPorCNPJ` | Tesouraria.Infrastructure/Repositories/FornecedorRepository.cs:58-63 | the untracked read returns the first stored supplier with the CNPJ |
| `Fornecedores.FornecedorService.constructor` | Tesouraria.Application/Services/FornecedorService.cs:11-14 | the service holds the given repository |
| `Fornecedores.FornecedorService.CadastrarFornecedor` | Tesouraria.Application/Services/FornecedorService.cs:17-35 | outcome and new context are `EfeitoCadastro` |
| `Fornecedores.FornecedorService.EditarFornecedor` | Tesouraria.Application/Services/FornecedorService.cs:49-80 | outcome and new context are `EfeitoEdicaoComoEscrita`, the code as written |
| `Fornecedores.FornecedorService.RemoverFornecedor` | Tesouraria.Application/Services/FornecedorService.cs:83-89 | the new context is `EfeitoRemocao` |
| `Usuarios.GerarHash` | Tesouraria.Application/Utils/PasswordHelper.cs:8-19 | an empty password has no digest; any other has the digest function's value |
| `Usuarios.PrimeiroComEmail` | Tesouraria.Infrastructure/Repositories/UsuarioRepository.cs:17-21 | the first user with the e-mail, or none iff no user has it |
| `Usuarios.IndiceComId` | Tesouraria.Application/Services/UsuarioService.cs:52 | the stored position of an id, or none iff no user has it |
| `Usuarios.EfeitoSalvar` | Tesouraria.Application/Services/UsuarioService.cs:20-54 | another user's e-mail is rejected first, then a missing password for a new user, then an unknown id; a non-empty password replaces the digest and an empty one keeps it; id 0 is stamped with the creation time and appended under the next key, any other id is stamped with the update time and replaces its row; a rejection changes nothing |
| `Usuarios.EmailUnico` | Tesouraria.Application/Services/UsuarioService.cs:23-28 | with unique e-mails, looking up a user's e-mail finds that user |
| `Usuarios.EmailComIdPositivo` | Tesouraria.Application/Services/UsuarioService.cs:23-28 | a stored user found by e-mail has a positive id, so a new user (id 0) never passes as its owner |
| `Usuarios.SalvarPreserva` | Tesouraria.Application/Services/UsuarioService.cs:20-54 | an accepted save keeps ids and e-mails unique and ids below the next key |
| `Usuarios.Autenticar` | Tesouraria.Application/Services/UsuarioService.cs:56-81 | login fails iff no user has the e-mail, the user is inactive, or the password's digest differs; an empty password never logs in; on success the DTO carries the user's id, name, e-mail and profile, and IsAdmin holds iff the lower-cased profile name contains "admin" |
| `Usuarios.SalvarEntaoAutenticar` | Tesouraria.Application/Services/UsuarioService.cs:20-81 | after an accepted save of an active user with a password, and with an injective digest, logging in with that e-mail succeeds exactly with that password and yields the saved user |
| `Usuarios.UsuarioRepository.constructor` | Tesouraria.Infrastructure/Repositories/UsuarioRepository.cs:12-15 | a repository over the given users |
| `Usuarios.UsuarioRepository.GetByEmail` | Tesouraria.Infrastructure/Repositories/UsuarioRepository.cs:17-21 | the loop returns the first user with the e-mail |
| `Usuarios.UsuarioRepository.Add` | Tesouraria.Application/Services/UsuarioService.cs:47 | the user is appended under the next key |
| `Usuarios.UsuarioRepository.Update` | Tesouraria.Application/Services/UsuarioService.cs:52 | the user's row is replaced; an unknown id fails with nothing changed |
| `Usuarios.UsuarioService.constructor` | Tesouraria.Application/Services/UsuarioService.cs:15-18 | the service holds the repository and the digest |
| `Usuarios.UsuarioService.SalvarUsuarioAsync` | Tesouraria.Application/Services/UsuarioService.cs:20-54 | outcome, saved user and new store are `EfeitoSalvar` |
| `Usuarios.UsuarioService.AutenticarAsync` | Tesouraria.Application/Services/UsuarioService.cs:56-81 | the result is `Autenticar` over the stored users |
| `Principal.Saudacao` | Tesouraria.Desktop/ViewModels/MainViewModel.cs:142 | the greeting is "Logado como [" then the name then "]" |
| `Principal.MainViewModel.constructor` | Tesouraria.Desktop/ViewModels/MainViewModel.cs:73-115 | the window starts with the permissions of the session's user, and an administrator always reaches the treasury screens |
| `Principal.MainViewModel.CarregarPermissoes` | Tesouraria.Desktop/ViewModels/MainViewModel.cs:117-150 | no user: a visitor with no access; a missing or empty profile: no access and the greeting kept; otherwise administrator iff the lower-cased, trimmed profile contains "admin", treasury iff administrator or it contains "tesour", and the greeting names the user |
| `Principal.AdministradorComoNoLogin` | Tesouraria.Desktop/ViewModels/MainViewModel.cs:134-137 | for a user the login accepts with a profile, the window's administrator flag equals the login's IsAdmin, though only the window trims |
| `RepositorioGenerico.BuscarPorId` | Tesouraria.Infrastructure/Data/Repository.cs:22-25 | a record with the id, active or not, or none iff no record has it |
| `RepositorioGenerico.Ativos` | Tesouraria.Infrastructure/Data/Repository.cs:27-31 | exactly the active records |
| `RepositorioGenerico.Excluir` | Tesouraria.Infrastructure/Data/Repository.cs:49-58 | the soft delete: the record with the id becomes inactive with the update time, and every other record is kept |
| `RepositorioGenerico.ExcluirInexistente` | Tesouraria.Infrastructure/Data/Repository.cs:51-53 | deleting an unknown id changes nothing |
| `RepositorioGenerico.ExcluirRemoveDaListagem` | Tesouraria.Infrastructure/Data/Repository.cs:49-58 | after a delete the id is gone from the listing, every other active record stays, and the record is still found by id, inactive and stamped |
| `RepositorioGenerico.BuscarUnico` | Tesouraria.Infrastructure/Data/Repository.cs:22-25 | with unique ids, looking up a record's id finds that record |
| `RepositorioGenerico.ExcluirIdempotente` | Tesouraria.Infrastructure/Data/Repository.cs:49-58 | deleting twice is deleting once, at the later time |
| `RepositorioGenerico.Repository.constructor` | Tesouraria.Infrastructure/Data/Repository.cs:16-20 | a new repository is empty |
| `RepositorioGenerico.Repository.AddAsync` | Tesouraria.Infrastructure/Data/Repository.cs:33-40 | an entity with a key already set is refused with `IdentidadeExplicita` and nothing changes; otherwise the record is stored active, stamped with the creation time, under the next key, and returned; it is then listed and found by id |
| `RepositorioGenerico.Repository.UpdateAsync` | Tesouraria.Infrastructure/Data/Repository.cs:42-47 | the record is stamped with the update time and replaces the stored one, its active flag as given; id 0 is inserted; an unknown id fails with nothing changed |
| `RepositorioGenerico.Repository.DeleteAsync` | Tesouraria.Infrastructure/Data/Repository.cs:49-58 | the store becomes `Excluir` of the old one |
| `Text.TrimStart` | Tesouraria.Desktop/Services/ExtratoService.cs:46 | drops exactly the leading white space |
| `Text.TrimEnd` | Tesouraria.Desktop/Services/ExtratoService.cs:46 | drops exactly the trailing white space |
| `Text.TrimIsSlice` | Tesouraria.Desktop/Services/ExtratoService.cs:46 | the trimmed text is the slice between the leading and trailing white space |
| `Text.TrimBlank` | Tesouraria.Desktop/Services/ExtratoService.cs:48 | a trimmed text is blank iff empty, iff the text was blank |
| `Text.LastIndexOf` | Tesouraria.Desktop/Services/ExtratoService.cs:180-181 | the last position of the character, or -1 |
| `Text.RemoveChar` | Tesouraria.Desktop/Services/ExtratoService.cs:194 | no occurrence of the character is left, and the text never grows |
| `Text.ReplaceChar` | Tesouraria.Desktop/Services/ExtratoService.cs:187 | every occurrence of one character becomes the other, all else kept |
| `Text.ContainsTrim` | Tesouraria.Desktop/ViewModels/MainViewModel.cs:134-137 | trimming does not change whether a text contains a word without blanks |
| `Calendar.FromParts` | Tesouraria.Desktop/Services/ExtratoService.cs:78-82 | a date exists iff the day exists in that month of a year from 1 to 9999 |
| `Calendar.MonthRange` | Tesouraria.Desktop/ViewModels/LancamentoListaViewModel.cs:210-211 | one month after the first of the month, less one day, is the month's last day, and every day of the month, taken at midnight, lies between the first and the last day |
| `Ordering.SortBy` | Tesouraria.Infrastructure/Repositories/LancamentoRepository.cs:46 | `OrderBy`: a permutation of the input, sorted by the key |
| `Ordering.InsertEstavel` | Tesouraria.Infrastructure/Repositories/LancamentoRepository.cs:46 | inserting an item keeps, among the items of each key, their relative order, the new item after those of equal key |
| `Ordering.SortByEstavel` | Tesouraria.Infrastructure/Repositories/LancamentoRepository.cs:46 | `OrderBy` is stable: for every key, the items with that key appear in the sorted output in their input order |
| `Somas.SomaPermutacao` | Tesouraria.Infrastructure/Repositories/LancamentoRepository.cs:46-59 | reordering does not change a sum |
| `Somas.FiltrarParticao` | Tesouraria.Desktop/ViewModels/ImportacaoExtratoViewModel.cs:108-114 | filters by a condition and by its negation together hold each item exactly once |
| `Somas.SomaGruposParticao` | Tesouraria.Desktop/Services/RelatorioPdfService.cs:29-38 | summing group by group over distinct keys covering every item gives the plain sum |

## Left out

- PDF reading and line reconstruction (`PdfDocument`, `GetWords`, `ReconstruirLinhas`) are a foreign library and floating-point geometry. The reader takes the reconstructed lines of each page as input.
- The `PERÍODO:` year capture is a regular expression over the same lines and falls back to the clock. Each page carries its year as `Extrato.Pagina.ano`.
- Regular expressions are not reimplemented. The `dd/MM` prefix and the amount pattern are hand-written predicates over ASCII digits. .NET's `\d` also accepts other Unicode digits, and `$` also matches before a final newline. The reconstructed lines carry neither.
- Extrato.ParseDecimal: covers only the texts the amount pattern lets through: digits with at most one `.`. Exponents, signs and white space accepted by `decimal.Parse` are not modelled, and neither is its 28-digit limit.
- Dates run from year 1 to 9999 with no time zone.
- The database throws when an insert carries a value for an identity key. The generic repository's insert returns the error `IdentidadeExplicita` instead and changes nothing.
- ListaLancamentos.LancamentoListaViewModel.constructor: requires a valid today before December 9999. The month's last day is found by adding a month, which does not exist after 9999-12.
- ListaLancamentos.LancamentoListaViewModel.InicializarDatas: requires a valid today before December 9999, for the same reason.
- Sorting uses the ordinal order of characters, not culture-aware collation. `Ordering.SortByEstavel` proves the sort stable, as `OrderBy` is.
- Text.ToLower: lower-cases ASCII letters only. Trimming and the blank check know the ASCII white space only.
- Usuarios.GerarHash: SHA-256 is a function parameter; `Usuarios.SalvarEntaoAutenticar` assumes it is injective.
- The SQL collation of the e-mail lookup may compare without case; the model compares exactly.
- Fornecedores.PrimeiroComCnpj: compares CNPJs exactly. On SQL Server, `=` on the `nvarchar(max)` column ignores trailing spaces, and under the default collation it ignores case too, and the form does not trim the CNPJ. So the database refuses "12345678000190 " when "12345678000190" is stored, while `Fornecedores.EfeitoCadastro` accepts it. The same holds for `Fornecedores.FornecedorRepository.ObterPorCNPJ`.
- LancamentoRepositorio.LancamentoRepository.Commit: amounts are integer cents from the start. The source keeps a `decimal` in memory, so a form amount with more than two decimals (0.004, say) passes the form's and the entity's checks. The save then rounds it to the `decimal(18,2)` column, where 0.004 becomes 0.00, a row `Lancamentos.Consistente` rules out. An amount beyond the column's 16 integer digits makes the save throw, while the model's commit accepts any integer.
- The user service is mid-refactor. It calls `GetByEmailAsync`, `AddAsync` and `UpdateAsync`, while the repository shown only has `ObterPorEmailAsync`. It also reads `Perfil?.Nome`, while the entity's `Perfil` is an enum. The model follows the service: the profile is an optional name, and the store is a sequence of users.
- Usuarios.UsuarioRepository.Update: an update of an unknown id is modelled as the error `UsuarioInexistente`. EF would raise a concurrency exception there.
- EF change tracking is modelled only where it decides an outcome: the supplier context's tracked copies. The entry repository stages changes and assigns keys on commit. Its next key is reserved in order, which callers cannot tell apart from database identity.
- `LancamentoServico.GravarInsercao` and `LancamentoServico.GravarAtualizacao` describe commits of one staged change, the only kind the service makes.
- `GerarRelatorioAsync` is declared neither by the service interface nor by `LancamentoService`. The list screen and the report take its result as a function parameter, and `None` stands for a thrown exception.
- The report's rendering (QuestPDF layout, styles, page numbers, opening the file) is left out, as is `Process.Start`. Only the figures are modelled.
- `MessageBox` and the confirmation dialogs are left out. A confirmation is a boolean parameter, and an error message is the returned outcome.
- `ViewModelBase` is not part of this model. `SetProperty` is taken to assign and to report whether the value changed.
- ImportacaoExtrato.ImportacaoExtratoViewModel.CarregarDadosIniciais: the empty `catch` is not modelled, since the repository reads cannot fail here. The constructor runs the load to its end; the source starts it without awaiting it.
- `ImportacaoExtrato.ImportacaoExtratoViewModel.PodeProcessar` (the command guard) is a predicate. Its use is stated by `ImportacaoExtrato.ImportarComPadroes`.
- The member and supplier lists of the entry form (`Fieis`, `Fornecedores`) only fill combo boxes and are left out.
- The service interface declares `EstornarLancamento`, `AtualizarAsync` and `ObterSaldoPrevistoAsync`, but `LancamentoService` implements none of them. The list screen's reversal command, which calls `EstornarLancamento`, is therefore left out. The entity's reversal is `Lancamentos.Estorno`.
- ListaLancamentos.LancamentoListaViewModel.constructor: the source starts `CarregarListasAuxiliares` and `CarregarDados` without awaiting either; the model runs them in that order. The listing's filter is the same either way, since the choice 0 that the first sets and the initial no choice both send no cost center (`ListaLancamentos.CentroCustoDoFiltro`).
- LancamentoCadastro.LancamentoCadastroViewModel.constructor: the source starts `CarregarListasAsync` without awaiting it; the model runs it to its end.
- ListaLancamentos.LancamentoListaViewModel.CarregarListasAuxiliares: the empty `catch` is not modelled, since the repository read cannot fail here.
- Saving the filter dates to the user settings is left out. Saved dates are a parameter.
- Lancamentos.Lancamento.constructor: requires validation to pass, because the C# constructor throws otherwise. The throwing path is `Lancamentos.Lancamento.Criar`.
- `AtualizarDados` does not re-check the category and cost-center ids or the category's type. The model follows the code.
- The dashboard, charts, backups, windows and the thin CRUD services are outside the core.
- Fornecedores.FornecedorRepository.Adicionar: the source calls `SaveChangesAsync` without awaiting it (FornecedorRepository.cs:22). The model takes the save as completed. A failed save is not modelled: its exception is never observed, the change stays tracked and is retried by the next save, and the next operation may overlap the save.
- Fornecedores.FornecedorRepository.Atualizar: the same unawaited save (FornecedorRepository.cs:29) is taken as completed; its failure is not modelled.
- Fornecedores.FornecedorRepository.Excluir: the same unawaited save (FornecedorRepository.cs:39) is taken as completed; its failure is not modelled.
- ImportacaoExtrato.ImportarAcrescenta: the confirmation text says the entries will be registered as 'Pagos' (ImportacaoExtratoViewModel.cs:153), but the code registers each one through `RegistrarAsync`, which creates it Pendente (line 183). The model follows the code, and the text's promise is not kept.
- ListaLancamentos.MesCorrente: the default range ends at midnight of the last day, as the source sets it, and the query compares the due date with `<=`. So an entry due later on the last day falls outside the current month's listing, as `ListaLancamentos.MesCorrenteTerminaMeiaNoite` states. The form and the import store due dates at midnight, so the model promises the range only for days taken at midnight.

## Findings

| source | as written | input that shows it | evidently intended | confidence | as-written member | corrected member |
|---|---|---|---|---|---|---|
| Tesouraria.Desktop/Services/ExtratoService.cs:136 | the amount pattern `\d{1,3}(?:[.,]\d{3})*[.,]\d{2}` takes at most three digits before the first separator, so the leftmost match of an amount without thousands separators starts inside it | the line `1000.20 C` matches `000.20`, read as 0.20 | `1000.20` read as 1000.20, as the comment at line 135 says | not executed | `Extrato.ComoEscritoLeMil` | `Extrato.CorrigidoLeMil` |
| Tesouraria.Application/Services/FornecedorService.cs:59-73 | `EditarFornecedor` copies the edited fields onto the tracked supplier before the duplicate-CNPJ check, and the rejection leaves that copy tracked | supplier 2 edited to supplier 1's CNPJ is rejected, then `CadastrarFornecedor` saves on the same context | a rejected edit leaves nothing behind, so CNPJs stay unique | not executed | `Fornecedores.EdicaoRecusadaDuplica` | `Fornecedores.EdicaoPreserva` |

For the amount pattern, `Extrato.CasarCom` takes the format as a parameter.

- `Extrato.CasarValorComoEscrito` uses the pattern as written, and `Extrato.MilNaoEscrito` shows that it refuses `1000.20`.
- `Extrato.CasarValor` allows any number of digits before the first separator.
- The reader functions take the format as a parameter. The methods that model the program (`Extrato.ProcessarBlocoFinal` up to `Extrato.LerArquivo`, and the import screen) use the pattern as written. `Extrato.BlocoMilComoEscrito` and `Extrato.BlocoMilCorrigido` show the difference on a whole block.
- `Extrato.CasarValorTextoValor` proves that it reads back every amount written after a blank.

For the supplier edit:

- `Fornecedores.EfeitoEdicaoComoEscrita` is the code as written, and `Fornecedores.EdicaoRecusadaDuplicaExemplo` is the concrete run.
- `Fornecedores.EfeitoEdicao` checks the CNPJ before copying. `Fornecedores.EdicaoPreserva` proves that it keeps CNPJs unique.
- The finding needs one context to serve both calls, as the application's scoped repository does.
