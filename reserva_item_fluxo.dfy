/** `app/domain/reserva_item_fluxo.py`: one row of a sale item's payment
    flow (the down payment or one installment), with its table's check
    constraints and column scales as an invariant. */
module ReservaItemFluxo {
  import opened Rounding

  /** Row kinds: 1 is the down payment, 2 an installment. */
  const Entrada: int := 1
  const Parcela: int := 2

  /** The `FluxoParcela` record the margin engine returns and the table
      stores. */
  datatype FluxoParcela = FluxoParcela(
    tipoParcela: int,
    numeroParcela: int,
    prazoDias: int,
    percentualBase: real,
    valorNominal: real,
    taxaEfetiva: real,
    valorPresente: real,
    custoFinanceiro: real)

  /** `CK_tb_cm_margem_fluxo_tipo_parcela` and
      `CK_tb_cm_margem_fluxo_percentual_base`. */
  predicate RestricoesValidas(p: FluxoParcela) {
    && (p.tipoParcela == Entrada || p.tipoParcela == Parcela)
    && 0.0 <= p.percentualBase <= 1.0
  }

  /** The column scales: `Numeric(9, 6)` for the base share and the rate,
      `Numeric(18, 2)` for the three amounts. */
  predicate EscalasValidas(p: FluxoParcela) {
    && IsMicros(p.percentualBase)
    && IsMicros(p.taxaEfetiva)
    && IsCents(p.valorNominal)
    && IsCents(p.valorPresente)
    && IsCents(p.custoFinanceiro)
  }

  /** Numero 0 marks the down payment, a positive numero an installment. */
  predicate NumeracaoValida(p: FluxoParcela) {
    (p.tipoParcela == Entrada && p.numeroParcela == 0)
    || (p.tipoParcela == Parcela && p.numeroParcela >= 1)
  }

  /** A row the table accepts, numbered as the flow builder numbers it. */
  predicate FluxoValido(p: FluxoParcela) {
    RestricoesValidas(p) && EscalasValidas(p) && NumeracaoValida(p)
  }
}
