# Calculo-de-margem in Dafny

A model of the margin calculator of a machine dealership (Calculo-de-margem).
The application takes a machine sale and works out three groups of figures:

- **Taxes and costs:** sale taxes, purchase taxes and the cost of goods sold (CMV).
- **Profit and commission:** gross profit, then the salesperson's commission with its DSR (paid rest day) and charges.
- **Financing:** the payment flow (down payment plus installments) with its financing cost, and the contribution margin.

The model covers:

- the margin engine (`MargemService`) and its payment-flow builder;
- the older stand-alone formulas (`CalculosMargem`) and the screen context built from them (`NovaReserva`);
- the two database lookups, as selections over rows (`MargemRepository`), and the table invariants of the DN configuration and flow rows (`ConfigDn`, `ReservaItemFluxo`);
- the pt-BR number and currency helpers (`Numeros`, `Formatacao`);
- the sign-in, rate-limiting and configuration helpers (`MsalAuth`, `Extensions`, `AppConfig`);
- the machine autocomplete of the sale form (`AutocompleteMaquinas`).

Decimals are `real`.

- The engine rounds every amount with an explicit half-up rounding (`Rounding.Q2`, `Rounding.Q6`).
- The older formulas round with `quantize` in the default context, which is half-even (`Rounding.QEven2`).
- Python's dynamic values (`None`, booleans, integers, finite `Decimal`s, strings) are `PyValues.PyValue`.
- A `Decimal` keeps its coefficient and exponent (`PyDecimal.Decimal`), so `str(d)` and `Decimal(s)` are modelled digit by digit.

These are parameters of the model:

- database rows;
- the environment (a map);
- the request and signed-in user;
- the fractional power `(1 + taxa) ** (prazo / 30)`;
- `quote_plus`;
- today's date.

Modules `PyText`, `PyDecimal` and `PyValues` model the Python and JavaScript built-ins the helpers use (`strip`, `split`, `lower`, `int`, `str`, `Decimal`).

## Model

| member | source | states |
|---|---|---|
| Rounding.Q2 | app/services/margem_service.py:86-88 | `_q2` gives a two-place amount within half a cent of its input, ties away from zero |
| Rounding.Q6 | app/services/margem_service.py:91-93 | `_q6` gives a six-place number within half a millionth of its input, ties away from zero |
| Rounding.QEven2 | app/utils/calculos_margem.py:21 | `quantize(Decimal("0.01"))` in the default context gives a two-place amount within half a cent; an exact tie goes to the even cent (`RoundHalfEven`) |
| Rounding.RoundHalfEven | app/utils/calculos_margem.py:21 | the integer nearest to its input; on an exact tie, the even one |
| Rounding.Q2OfCents | app/services/margem_service.py:88 | `_q2` leaves a two-place amount unchanged |
| Rounding.Q6OfMicros | app/services/margem_service.py:93 | `_q6` leaves a six-place number unchanged |
| Rounding.QEven2OfCents | app/utils/calculos_margem.py:21 | `quantize` leaves a two-place amount unchanged |
| Rounding.Q2Monotone | app/services/margem_service.py:86-88 | `_q2` never reverses the order of two amounts |
| Rounding.Q6Monotone | app/services/margem_service.py:91-93 | `_q6` never reverses the order of two numbers |
| Rounding.Q2Negate | app/services/margem_service.py:88 | ROUND_HALF_UP is symmetric: `_q2(-x) == -_q2(x)` |
| Rounding.CentsClosed | app/services/margem_service.py:239 | sums and differences of two-place amounts are two-place amounts, so totals of rounded parts need no rounding |
| Rounding.HalfEvenAgreesOffTies | app/utils/calculos_margem.py:21 | away from an exact half-cent tie, half-even and half-up rounding agree |
| Rounding.HalfEvenDiffersOnTie | app/utils/calculos_margem.py:21 | on the tie 0.125 the older formulas give 0.12 where the engine gives 0.13 |
| MargemService.PercentualBase | app/services/margem_service.py:450-453 | `percentual_base` is 0 for a non-positive base; for a nominal in [0, base] it lies in [0, 1]; always six places |
| MargemService.TaxaEfetiva | app/services/margem_service.py:455-456 | the effective rate is a six-place number |
| MargemService.TaxaEfetivaNaoNegativa | app/services/margem_service.py:455-456 | with a non-negative monthly rate and term, and a power at least 1 on such arguments, the effective rate is non-negative |
| MargemService.CriarParcela | app/services/margem_service.py:440-469 | `_criar_parcela` fails (division by zero) iff `1 + taxa_efetiva == 0`; otherwise the row carries the given type, number and term, nominal `q2(nominal)`, the base share, the rate, the column scales, and present value and cost each within half a cent of `nominal/(1+taxa)` and `nominal - that` |
| MargemService.CustoQuaseNominalMenosPresente | app/services/margem_service.py:457-468 | for a two-place nominal, the stored cost is within one cent of stored nominal minus stored present value |
| MargemService.CustoArredondadoSeparado | app/services/margem_service.py:457-468 | because cost and present value are rounded separately, they can disagree by a cent (100.01 at a 100% rate gives 50.01 and 50.01) |
| MargemService.CriarParcelaSemDesconto | app/services/margem_service.py:450-469 | with non-negative rate, term and nominal the row is always built, its rate is non-negative, and present value and cost lie in [0, nominal] |
| MargemService.Restante | app/services/margem_service.py:409-411 | the remainder is the base minus the down payment when it is positive, else the base |
| MargemService.ValorParcela | app/services/margem_service.py:423 | the installment value is a two-place amount within half a cent of `restante / n` |
| MargemService.Plano | app/services/margem_service.py:404-438 | the plan has `n` entries plus one iff there is a down payment |
| MargemService.PlanoIndice | app/services/margem_service.py:410-436 | entry `j` is the down payment (type 1, number 0, first term) when there is one; otherwise it is installment `j - d + 1` (type 2, term `prazo_primeira + intervalo * i`, value `q2(restante/n)`) |
| MargemService.PlanoForma | app/services/margem_service.py:413-436 | rows are numbered consecutively from 0 (with a down payment) or from 1; number 0 is exactly the down payment; types are 1 or 2; each term is first term plus `numero` intervals; all installments share one value; with a non-negative interval the terms never decrease |
| MargemService.SomaNominalIguais | app/services/margem_service.py:423-432 | n rows of the same value sum to n times it |
| MargemService.SomaNominalConcat | app/services/margem_service.py:404-438 | the nominal sum of two lists is the sum of their sums |
| MargemService.SomaPlano | app/services/margem_service.py:409-436 | the plan's nominal sum is the down payment (when positive) plus `n * q2(restante/n)` |
| MargemService.ArredondamentoAcumulado | app/services/margem_service.py:423 | n values each within half a cent of `resto/n` add up to within `n * 0.005` of `resto` |
| MargemService.PlanoReconstroiBase | app/services/margem_service.py:409-436 | with at least one installment, down payment plus installments reconstruct the base within `n * 0.005` |
| MargemService.MontarFluxoPagamento | app/services/margem_service.py:393-438 | `_montar_fluxo_pagamento` gives no rows for a non-positive base or a negative count; otherwise exactly the rows of `Plano` in order, or the division by zero one of them meets |
| MargemService.EntradaNaBase | app/services/margem_service.py:288 | a down-payment share in [0, 1] gives a down payment in [0, base] |
| MargemService.NominaisNaBase | app/services/margem_service.py:409-432 | every plan entry's nominal lies in [0, base] when the down payment does |
| MargemService.FluxoRespeitaTabela | app/domain/reserva_item_fluxo.py:24-31 | every row the builder emits satisfies the table's check constraints, column scales and numbering (type 1 with number 0, or type 2 with number ≥ 1) |
| MargemService.SomaCustosCentavos | app/services/margem_service.py:301-303 | the sum of two-place costs is two-place, so the final `_q2` leaves it unchanged |
| MargemService.OuReal | app/services/margem_service.py:268 | `x or d` for a decimal: `d` when `x` is `None` or 0, else `x` |
| MargemService.OuInt | app/services/margem_service.py:289-291 | `x or d` for an integer: `d` when `x` is `None` or 0, else `x` (an interval of 0 becomes 30) |
| MargemService.OuData | app/services/margem_service.py:147 | `x or d` for a date |
| MargemService.ResolverAnoMesDn | app/services/margem_service.py:363-365 | the DN key is the date's year and its month, which is always present and 1..12 for a valid date |
| MargemService.ObterParamOuDefault | app/services/margem_service.py:367-391 | the repository's value when it has one, exactly the default when it returns `None` (in particular when no row is eligible) |
| MargemService.ParametroNuloUsaDefault | app/services/margem_service.py:383-391 | for any rows: when a qualifying row is more specific than every other qualifying row and its value is NULL, the default is used, whatever the less specific rows hold |
| MargemService.Modalidade | app/services/margem_service.py:152-154 | the financing modality is `None` iff the form's is `None` or -1 |
| MargemService.DataDn | app/services/margem_service.py:147-158 | the DN date is the delivery forecast when set, else the reservation date, else today |
| MargemService.DnDoMesPedido | app/services/margem_service.py:158-172 | with valid dates and DN rows, a found DN row has the DN date's year and its month, never a year-only (NULL month) row |
| MargemService.VendaTotal | app/services/margem_service.py:176-178 | the sale total is a two-place amount |
| MargemService.VendaSemQuantidade | app/services/margem_service.py:176-181 | a missing quantity or unit price gives a zero total, which the engine rejects |
| MargemService.ResolverParametros | app/services/margem_service.py:185-233 | with no parameter rows every rate is the default `calcular` passes for its code |
| MargemService.Percentual | app/services/margem_service.py:279 | `_q6(x / total)` is six-place and non-negative for a non-negative `x` |
| MargemService.Encargos | app/services/margem_service.py:309 | the commission charges are a two-place amount |
| MargemService.Verificar | app/services/margem_service.py:144-181 | the checks before the amounts pass iff the form is valid and a DN configuration exists |
| MargemService.CalcularVendaECompra | app/services/margem_service.py:236-263 | each sale and purchase tax is rounded on its own; the tax totals are their exact sums; CMV is the signed sum of its rounded parts, rounded; all are two-place |
| MargemService.CalcularLucro | app/services/margem_service.py:266-279 | PDI/garantia falls back to the parameter when the form's share is `None` or 0; gross profit is the signed sum rounded; its share is `_q6(lucro / total)` |
| MargemService.CalcularComissao | app/services/margem_service.py:306-310 | `bruta = q2(total * p)`, `dsr = q2(bruta * p_dsr)`, `encargos = q2((bruta + dsr) * p_enc)`, total their exact sum |
| MargemService.CalcularMargem | app/services/margem_service.py:313-332 | the carta-fiança share falls back to the parameter when `None` or 0; the contribution margin is the stated signed sum of rounded parts, rounded; its share is `_q6(margem / total)` |
| MargemService.CalcularFluxo | app/services/margem_service.py:282-300 | the flow is the builder's rows for base = sale total, down payment `q2(total * perc)`, count, first term and interval (0 → 30); every row satisfies the table invariant |
| MargemService.Calcular | app/services/margem_service.py:143-360 | `calcular` fails with the first failed check (invalid form, no DN, non-positive total, down payment outside [0, 1]) or the flow's division by zero; otherwise every figure is as the predicates state for the looked-up rates and DN |
| MargemService.CalcularValores | app/services/margem_service.py:236-300 | a down-payment share below 0 or above 1 is rejected only after the amounts before it were computed; otherwise the full result as `Calculado` states |
| MargemService.CalcularFluxoEMargem | app/services/margem_service.py:287-360 | from the sale, purchase and profit figures, the flow, financing cost, commission and margin complete a result satisfying `Calculado` |
| MargemService.CentavosCmv | app/services/margem_service.py:255-263 | the CMV sum of two-place parts is already two-place |
| MargemService.CentavosLucro | app/services/margem_service.py:271-278 | the gross-profit sum of two-place parts is already two-place |
| MargemService.CentavosMargem | app/services/margem_service.py:322-331 | the margin sum of two-place parts is already two-place |
| CalculosMargem.ImpostosVenda | app/utils/calculos_margem.py:10-21 | `valor * (icms/100 + pis/100)` to the nearest cent, missing inputs as 0 |
| CalculosMargem.ImpostosVendaTieToEven | app/utils/calculos_margem.py:21 | 1% of 12.5 is 0.12 here, where the engine's half-up rounding gives 0.13 |
| CalculosMargem.ImpostosCompra | app/utils/calculos_margem.py:25-42 | `None` iff the machine value is `None` or 0; otherwise value times both percentages to the nearest cent |
| CalculosMargem.SomaHoras | app/utils/calculos_margem.py:51-56 | the sum of the non-negative entries is non-negative |
| CalculosMargem.SomaHorasSnoc | app/utils/calculos_margem.py:51-56 | one more entry adds its hours, or nothing when they are negative |
| CalculosMargem.SomaHorasSkipsNegative | app/utils/calculos_margem.py:54-55 | a negative entry anywhere in the list is skipped |
| CalculosMargem.SomaHorasAppend | app/utils/calculos_margem.py:51-56 | the total of a concatenation is the sum of the totals |
| CalculosMargem.TotalHorasOpcionais | app/utils/calculos_margem.py:46-58 | the loop's total is the rounded sum of the non-negative entries; 0 for an empty list; never negative |
| CalculosMargem.MaoObraAgregaDesagrega | app/utils/calculos_margem.py:62-65 | hours × 200 to the nearest cent |
| CalculosMargem.MaoObraExact | app/utils/calculos_margem.py:62-65 | two-place hours give exactly hours × 200 |
| CalculosMargem.PercentualDe | app/utils/calculos_margem.py:69-110 | credit, PDI/garantia, carta-fiança, gross commission and DSR: `None` iff the base is `None`; otherwise base × pct/100 to the nearest cent |
| CalculosMargem.Cmv | app/utils/calculos_margem.py:114-142 | `None` iff the machine value is `None`; otherwise the rounded documented formula, each missing term contributing nothing |
| CalculosMargem.CmvExactOnCents | app/utils/calculos_margem.py:114-142 | with two-place terms the CMV is exactly the formula |
| CalculosMargem.LucroBruto | app/utils/calculos_margem.py:146-170 | `None` iff the sale value is `None`; otherwise the rounded documented formula, missing terms contributing nothing |
| CalculosMargem.LucroBrutoExactOnCents | app/utils/calculos_margem.py:146-170 | with two-place terms the gross profit is exactly the formula |
| CalculosMargem.EncargosComissao | app/utils/calculos_margem.py:204-216 | `None` iff gross commission or DSR is `None`; otherwise `(bruta + dsr) * pct/100` to the nearest cent |
| CalculosMargem.TotalComissaoVendedor | app/utils/calculos_margem.py:220-229 | `None` only when all three parts are `None`; otherwise the sum with missing parts as 0, to the nearest cent |
| CalculosMargem.TotalComissaoExactOnCents | app/utils/calculos_margem.py:220-229 | two-place parts add up exactly |
| CalculosMargem.PercentualSobreVenda | app/utils/calculos_margem.py:233-246 | the three percentages: `None` iff either argument is `None` or the sale is 0; otherwise `(x / venda) * 100` to the nearest cent |
| CalculosMargem.MargemContribuicao | app/utils/calculos_margem.py:250-283 | `None` iff gross profit is `None`; otherwise the rounded documented formula, missing terms contributing nothing |
| NovaReserva.Campos | app/service/nova_reserva_service.py:107-108 | each field of a column is `(x or "").strip()` |
| NovaReserva.MaxLinhas | app/service/nova_reserva_service.py:104 | `min(len(nomes), len(horas), limite_linhas)`, and no rows for a negative limit |
| NovaReserva.Filtrar | app/service/nova_reserva_service.py:106-114 | at most one kept row per examined row |
| NovaReserva.HorasPreenchidas | app/service/nova_reserva_service.py:116-117 | at most one hours entry per kept row |
| NovaReserva.HorasPreenchidasSnoc | app/service/nova_reserva_service.py:116-117 | a kept row adds its hours exactly when they are non-empty |
| NovaReserva.LinhasPrefix | app/service/nova_reserva_service.py:106-114 | examining more rows only appends to the kept list |
| NovaReserva.LinhasKeepsRow | app/service/nova_reserva_service.py:110-114 | row `j` is dropped iff both stripped fields are empty; when kept it is appended as the stripped pair |
| NovaReserva.LinhasNotBlank | app/service/nova_reserva_service.py:110-114 | every kept row has a non-empty field |
| NovaReserva.LinhasMantidasStep | app/service/nova_reserva_service.py:106-114 | one loop iteration appends the row iff it is not blank |
| NovaReserva.LinhasMantidasFiltra | app/service/nova_reserva_service.py:104-114 | the loop's rows are the stripped columns filtered in input order |
| NovaReserva.CamposStripped | app/service/nova_reserva_service.py:107-108 | every stored field is stripped |
| NovaReserva.LinhasStripped | app/service/nova_reserva_service.py:107-114 | kept rows are stored stripped |
| NovaReserva.ProcessarOpcionais | app/service/nova_reserva_service.py:92-126 | the kept rows in order; total and formatted text are `None` iff no kept row has hours; otherwise the total is the rounded sum of their hours (non-negative) and the text its `formatar_brl` |
| NovaReserva.ResultadosCompletos | app/service/nova_reserva_service.py:30-70 | every result of the screen is in the key list |
| NovaReserva.Chaves | app/service/nova_reserva_service.py:30-70 | the key set holds every value key and every formatted key |
| NovaReserva.ValorDe | app/service/nova_reserva_service.py:140-388 | a stored value is `None` iff the result was not computed |
| NovaReserva.Formatado | app/service/nova_reserva_service.py:140-388 | a formatted entry is `None` iff its value is `None` |
| NovaReserva.ContextoVazio | app/service/nova_reserva_service.py:73-131 | `_contexto_vazio`/`contexto_inicial`: every key present, every value `None` |
| NovaReserva.ContextoDe | app/service/nova_reserva_service.py:140-388 | after storing the results `rs`, every value key is present and holds its result when stored, else `None` |
| NovaReserva.ContextoDeFormatado | app/service/nova_reserva_service.py:140-388 | each formatted entry is `formatar_brl` of its value when stored, else `None` |
| NovaReserva.ValidoDeEntradas | app/service/nova_reserva_service.py:140-388 | a dict holding those values and formatted entries has exactly the expected keys |
| NovaReserva.Contexto | app/service/nova_reserva_service.py:140-388 | the context holds every result under its value key |
| NovaReserva.ContextoFormatado | app/service/nova_reserva_service.py:140-388 | each formatted key holds `formatar_brl` of its value, and the context has exactly the `_CALCULO_KEYS` keys |
| NovaReserva.ValorMaquinaBase | app/service/nova_reserva_service.py:192-196 | the machine value is found iff the id is truthy and the repository knows it |
| NovaReserva.CalcularVenda | app/service/nova_reserva_service.py:142-186 | the sales taxes are always computed; the carta-fiança and the PDI are present exactly when the sale and their percentage were given, and are then that percentage of the sale; the maintenance contract is the typed value |
| NovaReserva.CalcularCompra | app/service/nova_reserva_service.py:190-266 | purchase taxes from the machine value; labour iff hours were given; each credit iff its freight and percentage were given, and then that percentage of the freight; CMV iff the machine value was found, as the rounded formula |
| NovaReserva.CalcularComissao | app/service/nova_reserva_service.py:285-350 | gross commission is the percentage of the sale; DSR needs it and is its percentage; charges need both and are `calcular_encargos_comissao` of them; the total needs all three and is their sum; the percentage also needs a non-zero sale |
| NovaReserva.CalcularMargem | app/service/nova_reserva_service.py:352-388 | the margin is present exactly when there is a gross profit and a sale, and is then the rounded margin formula; %RB needs the margin and a non-zero sale and is the margin over the sale; margin-%RB is present with %RB and is the gross profit over the sale |
| NovaReserva.ContextoDeMargem | app/service/nova_reserva_service.py:198-388 | results present as the form says give a context whose machine, CMV, profit and margin entries are `None` exactly when not computed |
| NovaReserva.ContextoDeComissao | app/service/nova_reserva_service.py:285-350 | the same for the commission entries |
| NovaReserva.CalcularValores | app/service/nova_reserva_service.py:142-388 | the sale taxes are always computed; every other result is present exactly when its inputs are, and then equals its formula on the form and the results before it (carta-fiança, PDI, credits, CMV, gross profit, commission chain, margin from gross profit, freight, credit, financing, carta, courtesy and commission; %RB of the margin; margin-%RB of the gross profit) |
| NovaReserva.CalcularContexto | app/service/nova_reserva_service.py:134-390 | `calcular_contexto`: a dict with exactly the `_CALCULO_KEYS` keys; sale taxes stored; machine, CMV, profit, margin and commission entries `None` exactly when not computed; the dict is the context of results that satisfy every value equation of `CalcularValores` |
| MargemRepository.Presente | app/repositories/margem_repository.py:177-179 | one point for a non-NULL dimension column |
| MargemRepository.Score | app/repositories/margem_repository.py:176-180 | the specificity score is 0..3: 3 iff all three dimensions are set, 0 iff none is |
| MargemRepository.SuperaEncadeia | app/repositories/margem_repository.py:182 | `ORDER BY score DESC, data_inicio DESC` is a strict weak order |
| MargemRepository.Melhor | app/repositories/margem_repository.py:154-182 | a row is chosen iff some row is eligible, and the chosen row is the first row of the ORDER BY (`Primeiro`: eligible, outranked by none, ahead of every eligible row before it) |
| MargemRepository.PrimeiroUnico | app/repositories/margem_repository.py:182 | at most one row is first in the ORDER BY, so the query answer is determined |
| MargemRepository.ObterParametroDecimal | app/repositories/margem_repository.py:143-188 | `None` when no row is eligible; otherwise exactly the `valor_decimal` of the row that is first in the ORDER BY, so a NULL there gives `None` even when a lower row has a value |
| MargemRepository.MelhorSnoc | app/repositories/margem_repository.py:182 | appending a row changes the choice iff the new row is eligible and outranks the previous choice |
| MargemRepository.Desloca | app/repositories/margem_repository.py:182 | renumbers a chosen index when a row is inserted before it |
| MargemRepository.MelhorIgnoraInelegivel | app/repositories/margem_repository.py:154-173 | a row the WHERE clause rejects does not change which row is chosen, wherever it stands |
| MargemRepository.MelhorDeslocaPasso | app/repositories/margem_repository.py:182 | the induction step of that statement |
| MargemRepository.ParametroIgnoraInelegivel | app/repositories/margem_repository.py:154-188 | the value looked up does not depend on rows the query filters out |
| MargemRepository.NuloEspecificoVence | app/repositories/margem_repository.py:175-188 | for any rows: a qualifying row more specific than every other qualifying row decides the lookup, so its NULL value gives `None` even when less specific rows have one |
| MargemRepository.SemDimensaoNaoFiltra | app/repositories/margem_repository.py:161-173 | with no dimension requested, every active row in force for the code is eligible |
| MargemRepository.ChaveConsulta | app/repositories/margem_repository.py:205-222 | a missing modality or month becomes 0; the other key columns are the request's |
| MargemRepository.MaisRecenteEncadeia | app/repositories/margem_repository.py:224 | `ORDER BY data_referencia DESC` (NULL last) is a strict weak order |
| MargemRepository.MelhorDn | app/repositories/margem_repository.py:208-226 | a match exists iff some row matches the key; no matching row is more recent than the chosen one |
| MargemRepository.Configuracao | app/repositories/margem_repository.py:232-237 | the DN config carries the row's id, amount, year and month |
| MargemRepository.ObterConfigDn | app/repositories/margem_repository.py:191-237 | `None` iff no row matches the key; otherwise the config of a matching row |
| MargemRepository.ConfigDnUnica | app/domain/config_dn.py:28-37 | in a table that keeps its unique key, the lookup returns the one matching row |
| MargemRepository.ConfigDnMesPedido | app/repositories/margem_repository.py:205-222 | asking for a month 1..12 returns a row of that month and year, never a year-only row |
| ConfigDn.NaoDepoisTotal | app/repositories/margem_repository.py:157-158 | date order is total and antisymmetric |
| ConfigDn.OuZero | app/domain/config_dn.py:84-93 | `ISNULL(x, 0)` |
| ConfigDn.Chave | app/domain/config_dn.py:28-37 | the unique key uses the computed zero columns |
| ConfigDn.MesZeroNulo | app/domain/config_dn.py:38-93 | in a valid row `mes_zero` is 0 exactly for a NULL month, and lies in 0..12 |
| Numeros.ToDecimal | app/utils/numeros.py:7-15 | `to_decimal`: `None` is 0, a decimal unchanged, an integer exact, a boolean and any unparsable text 0 |
| Numeros.ToDecimalOfString | app/utils/numeros.py:13 | the text of a decimal converts back to the same decimal |
| Numeros.BadStartNotNumeric | app/utils/numeros.py:13-15 | text that does not start like a number is not a number |
| Numeros.BoolTextNotDecimal | app/utils/numeros.py:13-15 | `Decimal("True")` and `Decimal("False")` fail, so booleans become 0 |
| Numeros.WordNotDecimal | app/utils/numeros.py:13-15 | a clean word starting with a letter is not a decimal |
| Numeros.NormalizeText | app/utils/numeros.py:29 | the output has no ','; it has '.' iff the input had ','; other characters are kept |
| Numeros.NormalizarNumeroPtbr | app/utils/numeros.py:19-30 | `None` or blank text gives "0"; numbers give `str(value)`; other text is stripped, dots dropped, commas turned into points |
| Numeros.NormalizedHasNoComma | app/utils/numeros.py:29-30 | normalised text never contains ',' |
| Numeros.RemoveCharConcat | app/utils/numeros.py:29 | `replace(".", "")` distributes over concatenation |
| Numeros.RemoveOneChar | app/utils/numeros.py:29 | removing the one dot between two dot-free parts joins them |
| Numeros.NormalizeTrimmed | app/utils/numeros.py:25-30 | text without blank ends is only rewritten, not stripped |
| Numeros.NormalizeExample | app/utils/numeros.py:18-30 | `normalizar_numero_ptbr("1.234,56") == "1234.56"` |
| Numeros.NormalizeDotExample | app/utils/numeros.py:29 | "1.5" becomes "15": a dot is always a thousands separator |
| Numeros.NormalizeBlank | app/utils/numeros.py:25-27 | whitespace-only text gives "0" |
| Formatacao.Grouped | app/utils/formatacao.py:10 | grouping n digits by three inserts `(n-1)/3` separators |
| Formatacao.TwoDigits | app/utils/formatacao.py:10 | the two decimals are two digits denoting the cents |
| Formatacao.SwapSeparators | app/utils/formatacao.py:11 | the swap keeps the length and exchanges ',' and '.' position by position |
| Formatacao.FormatarBrl | app/utils/formatacao.py:6-11 | `formatar_brl` is `None` iff its argument is `None` |
| Formatacao.SwapInvolution | app/utils/formatacao.py:11 | swapping twice gives the text back (when it has no 'X') |
| Formatacao.SwapKeepsDigits | app/utils/formatacao.py:11 | the swap never moves or changes a digit |
| Formatacao.GroupedChars | app/utils/formatacao.py:10 | grouped text holds only digits and the separator |
| Formatacao.SwapGrouped | app/utils/formatacao.py:10-11 | swapping comma-grouped digits gives the dot-grouped ones |
| Formatacao.UngroupDigits | app/utils/formatacao.py:10 | removing the separators gives the digits back |
| Formatacao.UngroupStep | app/utils/formatacao.py:10 | one group at a time |
| Formatacao.SwapConcat | app/utils/formatacao.py:11 | the swap distributes over concatenation |
| Formatacao.SwapDigits | app/utils/formatacao.py:11 | digits alone are unchanged by the swap |
| Formatacao.GroupedHead | app/utils/formatacao.py:10 | grouped text starts with the first digit |
| Formatacao.FormatarBrlText | app/utils/formatacao.py:6-11 | the text is the sign, the dot-grouped whole part, ',' and two decimals of the half-even rounded cents |
| Formatacao.BrlTextComma | app/utils/formatacao.py:11 | exactly one ',' and it is followed by two digits |
| Formatacao.FormatarBrlExample | app/utils/formatacao.py:5-11 | `formatar_brl(1234.56) == "1.234,56"` |
| Formatacao.RemoveGroupDots | app/utils/numeros.py:29 | normalising drops the thousands dots of currency text |
| Formatacao.ReplaceDecimalComma | app/utils/numeros.py:29 | normalising turns the decimal comma into a point |
| Formatacao.BrlTextEnds | app/utils/formatacao.py:11 | currency text is non-empty with no blank ends |
| Formatacao.BrlNormalizes | app/utils/numeros.py:19-30 | normalising currency text gives the plain signed `i.dd` text |
| Formatacao.MantissaAlone | app/utils/numeros.py:13 | a mantissa with no exponent reads with its scale as exponent |
| Formatacao.PointedHasNoExponent | app/utils/numeros.py:13 | `i.t` has no exponent letter |
| Formatacao.PlainBodyParses | app/utils/numeros.py:13 | `i.dd` reads as that many hundredths |
| Formatacao.SignedPlainClean | app/utils/numeros.py:13 | signed `i.dd` has no blank ends and no '_' |
| Formatacao.SignedPlainParses | app/utils/numeros.py:13 | signed `i.dd` reads as the signed hundredths |
| Formatacao.PlainTextParses | app/utils/numeros.py:13 | plain text parses with coefficient ± cents and exponent -2 |
| Formatacao.HundredthsValue | app/utils/numeros.py:13 | exponent -2 means hundredths |
| Formatacao.BrlTextReadsBack | app/utils/numeros.py:7-30 | currency text read back through the normaliser and `to_decimal` is the signed cents |
| Formatacao.FormatarBrlReadsBack | app/utils/formatacao.py:6-11 | `to_decimal(normalizar_numero_ptbr(formatar_brl(x)))` is `x` rounded half-even to cents |
| PyDecimal.ParseNumericString | app/repositories/margem_repository.py:188 | the text `str` writes for a decimal parses back to the same coefficient and exponent |
| PyDecimal.ParseDecimalString | app/repositories/margem_repository.py:188 | `Decimal(str(d)) == d` |
| PyDecimal.IntegralDecimalString | app/utils/numeros.py:13 | `str(Decimal(i)) == str(i)` |
| PyDecimal.ParseIntString | app/utils/numeros.py:13 | `Decimal(str(i))` is `i` with exponent 0 |
| PyDecimal.DecimalToStringChars | app/utils/numeros.py:23 | `str(d)` uses only digits, signs, the point and 'E' |
| PyText.IntToStringParses | app/app_config.py:16 | `int(str(i)) == i` |
| PyText.StripEmptyIffAllSpace | app/utils/numeros.py:25-27 | `strip()` is empty iff every character is whitespace |
| PyText.StripIdempotent | app/extensions.py:29 | stripping twice is stripping once |
| PyText.JoinSplit | app/extensions.py:29 | splitting on a character and joining with it gives the text back |
| PyText.SplitJoin | app/app_config.py:25 | joining separator-free parts and splitting again gives the parts |
| PyText.CsvItems | app/app_config.py:25 | every CSV item is non-empty, stripped and comma-free |
| PyText.CsvItemsJoin | app/app_config.py:25 | clean items comma-joined read back as themselves |
| PyText.CsvItemsIdempotent | app/app_config.py:25 | reading CSV is a normalisation: re-reading its own output changes nothing |
| PyText.SplitWs | app/security/msal_auth.py:114 | `split()` gives non-empty words without whitespace |
| PyText.SplitWsStrip | app/security/msal_auth.py:110-114 | `s.strip().split() == s.split()` |
| PyText.SplitWsTrailing | app/security/msal_auth.py:114 | trailing whitespace does not change `split()` |
| PyText.SplitWsJoin | app/security/msal_auth.py:114 | `" ".join(words).split() == words` for whitespace-free, non-empty words |
| MsalAuth.ExtractClaim | app/security/msal_auth.py:87-92 | `None` iff no listed key has a truthy value; otherwise the text of a truthy one |
| MsalAuth.ExtractClaimFirst | app/security/msal_auth.py:88-91 | the winner is the FIRST key with a truthy value |
| MsalAuth.EmailDomainAllowed | app/security/msal_auth.py:95-106 | an empty list accepts all; without '@' reject; else accept iff the domain after the first '@' is a lowercased, stripped, non-blank entry |
| MsalAuth.LowerIdempotent | app/security/msal_auth.py:104-105 | lower-casing twice is lower-casing once |
| MsalAuth.LowerSuffix | app/security/msal_auth.py:104 | lower-casing commutes with dropping a prefix |
| MsalAuth.LowerKeepsAt | app/security/msal_auth.py:101-104 | lower-casing keeps the first '@' where it was |
| MsalAuth.EmailDomainCaseInsensitive | app/security/msal_auth.py:95-106 | the domain check ignores the case of the address |
| MsalAuth.DomainOfLower | app/security/msal_auth.py:104 | the domain of the lowercased address is the domain of the address |
| MsalAuth.SliceTo | app/security/msal_auth.py:118 | `s[:n]` is a prefix of length `min(n, len)`, counted from the end for negative `n` |
| MsalAuth.NormalizeCargo | app/security/msal_auth.py:109-118 | the title is at most `max_length` long |
| MsalAuth.JoinWordsSingleSpaced | app/security/msal_auth.py:114 | words joined by one space have no two adjacent spaces |
| MsalAuth.SingleSpacedPrefix | app/security/msal_auth.py:118 | truncation keeps the text single-spaced |
| MsalAuth.CollapseSpacesShape | app/security/msal_auth.py:114 | collapsing a non-blank text gives non-empty single-spaced text |
| MsalAuth.NormalizeCargoShape | app/security/msal_auth.py:109-118 | `None` iff the text is blank; otherwise single-spaced |
| MsalAuth.NormalizeCargoWords | app/security/msal_auth.py:109-118 | the title is a prefix of the input's words joined by single spaces, of length `min(max_length, len)`, and has exactly the input's words when the limit does not cut it |
| MsalAuth.CollapseKeepsWords | app/security/msal_auth.py:110-114 | collapsing the stripped text gives its words joined by single spaces, and an uncut result splits back into those words |
| MsalAuth.GetScopes | app/security/msal_auth.py:58-62 | a missing or empty setting gives `["User.Read"]`; a string gives clean comma-separated items; a list is kept |
| MsalAuth.GetScopesOfJoined | app/security/msal_auth.py:60-61 | clean scopes written comma-separated read back as themselves |
| MsalAuth.ScopesFromConfig | app/app_config.py:106 | scopes from the configuration are never empty, `["User.Read"]` when unset |
| Extensions.CsvToList | app/extensions.py:25-30 | a falsy input gives []; every item is non-empty and stripped; string items are comma-free; an iterable gives at most one item per element |
| Extensions.CsvEnv | app/extensions.py:33-37 | the default's items when the variable is missing or blank, else the value's items |
| Extensions.CsvEnvAgreesWithEnvCsv | app/extensions.py:33-37 | on a non-blank value `_csv_env` and `env_csv` agree |
| Extensions.BoolEnv | app/extensions.py:40-44 | the default when unset; else true iff the stripped, lowercased value is "1", "true", "yes" or "on" |
| Extensions.BoolEnvDiffersOnlyOnY | app/extensions.py:44 | `_bool_env` and `env_bool` disagree exactly on "y" |
| Extensions.ExemptByPrefix | app/extensions.py:81-83 | exempt iff some non-empty prefix starts the path |
| Extensions.LimiterSkip | app/extensions.py:77-84 | exempt iff the path is "/health" or "/favicon.ico", starts with "/static/", or starts with a non-empty configured prefix |
| Extensions.EmptyPrefixExemptsNothing | app/extensions.py:82 | an empty prefix in the setting changes nothing |
| Extensions.UserId | app/extensions.py:51-55 | the first truthy of `id`, `oid`, `get_id()` |
| Extensions.FirstForwarded | app/extensions.py:69-71 | the first forwarded hop has no comma |
| Extensions.ClientIp | app/extensions.py:62-72 | the first access-route entry, else the first forwarded hop, else the remote address, else "unknown"; never empty |
| Extensions.RateLimitKey | app/extensions.py:48-73 | "user:<uid>" for an authenticated user with a truthy id, else "ip:<address>" |
| Extensions.RateLimitKeyKinds | app/extensions.py:48-73 | user keys and address keys never collide; an address key names an address |
| AppConfig.EnvBool | app/app_config.py:7-11 | the default when unset; else true iff the stripped, lowercased value is "1", "true", "yes", "y" or "on" |
| AppConfig.EnvInt | app/app_config.py:14-18 | the parsed integer when the value parses, else the default |
| AppConfig.EnvIntUnset | app/app_config.py:16 | an unset variable gives the default (`int(str(default))`) |
| AppConfig.EnvIntReadsWritten | app/app_config.py:16 | any integer written in the environment, with blank ends, is read back |
| AppConfig.EnvTimedeltaSeconds | app/app_config.py:29-30 | the seconds are `env_int`'s |
| AppConfig.EnvCsv | app/app_config.py:21-25 | [] for an empty value; items non-empty, stripped and comma-free |
| AppConfig.EnvCsvReadsWritten | app/app_config.py:21-25 | a list written comma-separated is read back as it was |
| AppConfig.EnvCsvDefault | app/app_config.py:22 | an unset variable reads its default text |
| AppConfig.DatabaseUri | app/app_config.py:58-83 | the cleaned `DATABASE_URL` when non-empty, else the pyodbc URL of the encoded ODBC string |
| AppConfig.OdbcUri | app/app_config.py:83 | the pyodbc prefix followed by the encoded string |
| AppConfig.DatabaseUriFallback | app/app_config.py:58-83 | an unset or blank `DATABASE_URL` falls back to ODBC |
| AppConfig.DatabaseUriUnquotes | app/app_config.py:58-71 | a quoted `DATABASE_URL` is used without its quotes |
| AppConfig.Authority | app/app_config.py:99-103 | empty iff the tenant id is empty; else the login endpoint for the tenant |
| AppConfig.AzureScopesDefault | app/app_config.py:106 | unset, the scopes are `["User.Read"]` |
| AppConfig.AllowedDomainsDefault | app/app_config.py:110 | unset, the allow-list is `["brasif.com.br"]` |
| AutocompleteMaquinas.Uniq | data/autocompleteMaquinas.js:22 | `uniq` keeps exactly the input's values, each once |
| AutocompleteMaquinas.FirstIndex | data/autocompleteMaquinas.js:22 | the first occurrence of a value |
| AutocompleteMaquinas.UniqKeepsFirstOrder | data/autocompleteMaquinas.js:22 | `uniq` keeps the order of first occurrences |
| AutocompleteMaquinas.LexLeTotal | data/autocompleteMaquinas.js:37 | the name comparison is total |
| AutocompleteMaquinas.LexLeTransitive | data/autocompleteMaquinas.js:37 | the name comparison is transitive |
| AutocompleteMaquinas.BeforeTotal | data/autocompleteMaquinas.js:27-38 | the comparator orders any two entries |
| AutocompleteMaquinas.BeforeTransitive | data/autocompleteMaquinas.js:27-38 | the comparator is transitive |
| AutocompleteMaquinas.Insert | data/autocompleteMaquinas.js:27-38 | one sorting step keeps the list ordered and adds exactly the entry |
| AutocompleteMaquinas.OrdenarRelevancia | data/autocompleteMaquinas.js:24-39 | the result is ordered by the comparator and a permutation of the input |
| AutocompleteMaquinas.PrefixMatchesFirst | data/autocompleteMaquinas.js:31-35 | entries starting with the term come before every entry that does not |
| AutocompleteMaquinas.Matching | data/autocompleteMaquinas.js:41-83 | exactly the field values of machines whose lowercase value contains the term |
| AutocompleteMaquinas.Suggestions | data/autocompleteMaquinas.js:43-46 | matching values, each once, in relevance order |
| AutocompleteMaquinas.WithField | data/autocompleteMaquinas.js:59-83 | exactly the machines with that field value |
| AutocompleteMaquinas.WithFieldNone | data/autocompleteMaquinas.js:51 | no machine with the value gives [] |
| AutocompleteMaquinas.LastWith | data/autocompleteMaquinas.js:12-13 | the last machine carrying a value |
| AutocompleteMaquinas.LastIndexStep | data/autocompleteMaquinas.js:12-13 | `set` on each machine keeps "the last machine with that value" |
| AutocompleteMaquinas.GroupIndexStep | data/autocompleteMaquinas.js:15-19 | pushing each machine keeps "all machines with that value, in order" |
| AutocompleteMaquinas.WithFieldSnoc | data/autocompleteMaquinas.js:15-19 | one more machine joins its own group only |
| AutocompleteMaquinas.Push | data/autocompleteMaquinas.js:15-16 | `if (!has) set(k, []); get(k).push(m)` appends to the group of `k` |
| AutocompleteMaquinas.BuildIndexes | data/autocompleteMaquinas.js:11-20 | the four maps: code and model to the last machine, type and brand to all machines |
| AutocompleteMaquinas.LaterModelWins | data/autocompleteMaquinas.js:13 | of two machines with one model, the later one is looked up |
| AutocompleteMaquinas.FiltrarMarcas | data/autocompleteMaquinas.js:41-47 | exactly the brands containing the text, each once |
| AutocompleteMaquinas.FiltrarTipos | data/autocompleteMaquinas.js:49-57 | distinct types in relevance order |
| AutocompleteMaquinas.FiltrarTiposOfBrand | data/autocompleteMaquinas.js:49-57 | an unknown brand gives []; otherwise exactly the matching types of that brand |
| AutocompleteMaquinas.Restrict | data/autocompleteMaquinas.js:61-64 | exactly the machines of the brand and type, when given |
| AutocompleteMaquinas.FiltrarModelos | data/autocompleteMaquinas.js:59-70 | exactly the matching models of the narrowed machines, each once |
| AutocompleteMaquinas.FiltrarCodigos | data/autocompleteMaquinas.js:72-83 | exactly the matching codes of the narrowed machines, each once |
| AutocompleteMaquinas.NextIndex | data/autocompleteMaquinas.js:177 | ArrowDown stays in [0, n) and wraps from the last to the first |
| AutocompleteMaquinas.PrevIndex | data/autocompleteMaquinas.js:181 | ArrowUp stays in [0, n), steps back and wraps from the first to the last; from no selection it lands on n-2 |
| AutocompleteMaquinas.NextPrevInverse | data/autocompleteMaquinas.js:175-182 | ArrowDown and ArrowUp undo each other on a selected item |
| AutocompleteMaquinas.Selection.constructor | data/autocompleteMaquinas.js:153 | closed, nothing selected |
| AutocompleteMaquinas.Selection.OnInput | data/autocompleteMaquinas.js:156-164 | blank input closes the box; otherwise it opens with the suggestions and nothing selected |
| AutocompleteMaquinas.Selection.CloseBox | data/autocompleteMaquinas.js:188-195 | closing keeps the selection index |
| AutocompleteMaquinas.Selection.OnKey | data/autocompleteMaquinas.js:168-191 | nothing without open items; ArrowDown/ArrowUp move the index cyclically within [0, n); Enter picks only when `selIndex >= 0`; Escape closes |

## Left out

- Floating point, NaN and infinities: decimals are exact `real`s, and the 18-digit context of the engine and the 28-digit default context are not modelled. `Decimal` text with NaN or infinity is treated as unparsable.
- The fractional power `(1 + taxa) ** (prazo / 30)` is a parameter; lemmas that need it assume only that it is at least 1 for a base ≥ 1 and an exponent ≥ 0.
- Form validation (WTForms): `calcular` receives its verdict as a boolean, and field values arrive already typed.
- Database access, logging and HTTP: lookups take the rows as a sequence, and the warning logged for a default parameter is not modelled.
- Ties in `ORDER BY` are not fixed by SQL. The model picks the first row among equally ranked rows. A NULL `data_referencia` sorts last under DESC, as SQL Server orders NULL lowest.
- `quote_plus` is a parameter of `AppConfig.DatabaseUri`.
- Exceptions inside `rate_limit_key` (a failing `getattr` or `access_route`) are not modelled.
- The MSAL sign-in flow, the Graph call and the user upsert are network and database I/O.
- The autocomplete's DOM rendering, box positioning, debounce timers and the brand auto-fill on selecting a type are not modelled. The single shared suggestions box is modelled as one `Selection` per field.
- AutocompleteMaquinas.OrdenarRelevancia: `localeCompare` is approximated by code-point order of the lowercased text, and the stability of `Array.prototype.sort` is not modelled. The result is stated as some ordered permutation.
- `Lower` lowercases ASCII and Latin-1 capitals only. JavaScript's `trim` is approximated by Python's whitespace set.
- NovaReserva.ProcessarOpcionais: the columns are given as sequences. The default `limite_linhas` of 100 is the caller's argument.
- NovaReserva.CalcularContexto: the machine repository is a map from id to purchase value.
- Rounding.QEven2 and PyDecimal.Decimal: a decimal is a number, so the sign of a zero is lost. A tiny negative figure, such as a -0.01 margin over a 100000.00 sale, quantizes to `Decimal("-0.00")` and is written "-0,00" by the program; the model writes "0,00". Likewise `str(Decimal("-0"))` is "-0" in Python and "0" here.
- MargemService.CriarParcela: the stored present value and cost are stated within half a cent of their exact values, not as the exact half-up result.
- CalculosMargem.ImpostosVenda, ImpostosCompra, MaoObraAgregaDesagrega, PercentualDe, EncargosComissao, TotalComissaoVendedor, PercentualSobreVenda: the result is stated to the nearest cent. The half-even tie rule is stated once, in `Rounding.QEven2`, and shown in `CalculosMargem.ImpostosVendaTieToEven`.
- CalculosMargem: inputs are decimals or `None`. Text inputs to `to_decimal` are covered by `Numeros.ToDecimal`, not by each formula.
- MargemService.Plano: with zero installments and a down payment, the remainder is in no row. `PlanoReconstroiBase` therefore requires at least one installment, and the form rejects zero installments.
- AutocompleteMaquinas.PrevIndex: ArrowUp with nothing selected lands on n-2, not n-1, for n ≥ 2. This is modelled as the program behaves, not as a defect.
- Extensions.BoolEnv and AppConfig.EnvBool differ on "y". Both are modelled as written.
