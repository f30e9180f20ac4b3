/** `app/utils/calculos_margem.py`: the older, stand-alone margin formulas.

    Percentages are on a 0..100 scale, missing inputs (`None`) are skipped or
    passed through as `None`, and every result is quantized to cents with the
    context default, ROUND_HALF_EVEN (`Rounding.QEven2`).  The callers hand in
    decimals or `None`; `to_decimal` of those is `OrZero`. */
module CalculosMargem {
  import opened PyText
  import opened Rounding
  import opened PyDecimal
  import opened PyValues
  import opened Numeros

  /** `to_decimal(x)` for a decimal or `None`. */
  function OrZero(o: Option<real>): real {
    if o.Some? then o.value else 0.0
  }

  /** `r` is a two-place amount at most half a cent away from `x`. */
  predicate NearestCents(r: real, x: real) {
    IsCents(r) && x - 0.005 <= r <= x + 0.005
  }

  /** `calcular_impostos_venda`: ICMS and PIS/COFINS on the sale value. A
      missing input counts as zero, so the result always exists. */
  function ImpostosVenda(valorVenda: Option<real>, icms: Option<real>, pisCofins: Option<real>): (r: real)
    ensures NearestCents(r, OrZero(valorVenda) * (OrZero(icms) + OrZero(pisCofins)) / 100.0)
  {
    var base := OrZero(valorVenda);
    var total := base * (OrZero(icms) / 100.0 + OrZero(pisCofins) / 100.0);
    assert total == base * (OrZero(icms) + OrZero(pisCofins)) / 100.0;
    QEven2(total)
  }

  /** The sale taxes round a tie to the even cent, where the margin engine
      would round it up: 1% of 12.50 is 0.125, which becomes 0.12 here and
      0.13 with ROUND_HALF_UP. */
  lemma {:induction false} ImpostosVendaTieToEven()
    ensures ImpostosVenda(Some(12.5), Some(1.0), None) == 0.12
    ensures Q2(12.5 * 1.0 / 100.0) == 0.13
  {
    assert 12.5 * (1.0 / 100.0 + 0.0 / 100.0) == 0.125;
    HalfEvenDiffersOnTie();
  }

  /** `calcular_impostos_compra`: `None` when the machine value is missing or
      zero, otherwise the purchase taxes on it. */
  function ImpostosCompra(valorMaquina: Option<real>, icmsPis: Option<real>, pisCofins: Option<real>): (r: Option<real>)
    ensures r.None? <==> valorMaquina.None? || valorMaquina.value == 0.0
    ensures r.Some? ==> NearestCents(r.value, valorMaquina.value * (OrZero(icmsPis) + OrZero(pisCofins)) / 100.0)
  {
    if valorMaquina.None? then None
    else
      var base := OrZero(valorMaquina);
      if base == 0.0 then None
      else
        var parte1 := base * (OrZero(icmsPis) / 100.0);
        var parte2 := base * (OrZero(pisCofins) / 100.0);
        assert parte1 + parte2 == base * (OrZero(icmsPis) + OrZero(pisCofins)) / 100.0;
        Some(QEven2(parte1 + parte2))
  }

  /** The number one entry of hours contributes: `to_decimal(
      normalizar_numero_ptbr(valor))`, read as an exact number. */
  function Hora(s: string): real {
    ToReal(ToDecimal(PyStr(NormalizarNumeroPtbr(PyStr(s)))))
  }

  /** The sum of the non-negative entries, first to last. */
  function SomaHoras(lista: seq<string>): (r: real)
    ensures r >= 0.0
  {
    if lista == [] then 0.0
    else
      var h := Hora(lista[|lista| - 1]);
      SomaHoras(lista[..|lista| - 1]) + (if h < 0.0 then 0.0 else h)
  }

  /** One more entry adds its hours, or nothing when they are negative. */
  lemma {:induction false} SomaHorasSnoc(l: seq<string>, x: string)
    ensures SomaHoras(l + [x]) == SomaHoras(l) + (if Hora(x) < 0.0 then 0.0 else Hora(x))
  {
    assert (l + [x])[..|l + [x]| - 1] == l;
  }

  /** A negative entry anywhere in the list is skipped. */
  lemma {:induction false} SomaHorasSkipsNegative(a: seq<string>, s: string, b: seq<string>)
    requires Hora(s) < 0.0
    ensures SomaHoras(a + [s] + b) == SomaHoras(a + b)
    decreases |b|
  {
    if b == [] {
      assert a + [s] + b == a + [s];
      assert a + b == a;
      SomaHorasSnoc(a, s);
    } else {
      var b', x := b[..|b| - 1], b[|b| - 1];
      var l1, l2 := a + [s] + b', a + b';
      SomaHorasSkipsNegative(a, s, b');
      SplitLast(a, s, b);
      SomaHorasSnoc(l1, x);
      SomaHorasSnoc(l2, x);
    }
  }

  /** The sum is the sum of the two halves' sums. */
  lemma {:induction false} SomaHorasAppend(a: seq<string>, b: seq<string>)
    ensures SomaHoras(a + b) == SomaHoras(a) + SomaHoras(b)
    decreases |b|
  {
    if b == [] {
      assert a + b == a;
    } else {
      var b' := b[..|b| - 1];
      SomaHorasAppend(a, b');
      assert (a + b)[..|a + b| - 1] == a + b';
      assert b[..|b| - 1] == b';
    }
  }

  lemma {:induction false} SomaHorasStep(lista: seq<string>, i: nat)
    requires i < |lista|
    ensures SomaHoras(lista[..i + 1])
      == SomaHoras(lista[..i]) + (if Hora(lista[i]) < 0.0 then 0.0 else Hora(lista[i]))
  {
    assert lista[..i + 1][..i] == lista[..i];
  }

  lemma {:induction false} QEven2NonNegative(x: real)
    requires x >= 0.0
    ensures QEven2(x) >= 0.0
  {
    var k := RoundHalfEven(x * 100.0);
    assert k as real >= -0.5;
    assert k >= 0;
  }

  /** `calcular_total_horas_opcionais`: each entry goes through the pt-BR
      normalisation and `to_decimal`; negative entries are skipped and the
      sum is quantized to cents. An empty list gives 0. */
  method TotalHorasOpcionais(lista: seq<string>) returns (total: real)
    ensures total == QEven2(SomaHoras(lista))
    ensures total >= 0.0 && IsCents(total)
    ensures lista == [] ==> total == 0.0
  {
    total := 0.0;
    if lista == [] {
      assert QEven2(0.0) == 0.0 by { assert (0.0).Floor == 0; }
      return;
    }
    var i := 0;
    while i < |lista|
      invariant 0 <= i <= |lista|
      invariant total == SomaHoras(lista[..i])
    {
      var dec := Hora(lista[i]);
      SomaHorasStep(lista, i);
      if dec < 0.0 {
        i := i + 1;
        continue;
      }
      total := total + dec;
      i := i + 1;
    }
    assert lista[..i] == lista;
    QEven2NonNegative(total);
    total := QEven2(total);
  }

  /** `calcular_mao_obra_agrega_desagrega`: hours times 200, to cents. */
  function MaoObraAgregaDesagrega(horas: Option<real>): (r: real)
    ensures NearestCents(r, OrZero(horas) * 200.0)
  {
    QEven2(OrZero(horas) * 200.0)
  }

  /** Hours given to two places give the labour value exactly. */
  lemma {:induction false} MaoObraExact(horas: Option<real>)
    requires IsCents(OrZero(horas))
    ensures MaoObraAgregaDesagrega(horas) == OrZero(horas) * 200.0
  {
    var h := OrZero(horas);
    var k := (h * 100.0).Floor;
    assert h * 200.0 * 100.0 == (2 * k * 100) as real;
    IntegerFloor(2 * k * 100);
    QEven2OfCents(h * 200.0);
  }

  /** `pct` percent of `base`, to cents; `None` when `base` is missing. This
      one body is `calcular_credito_impostos`,
      `calcular_entrega_tecnica_pdi_garantia`, `calcular_carta_fianca`,
      `calcular_comissao_bruta` and `calcular_dsr`. */
  function PercentualDe(base: Option<real>, pct: Option<real>): (r: Option<real>)
    ensures r.None? <==> base.None?
    ensures r.Some? ==> NearestCents(r.value, base.value * OrZero(pct) / 100.0)
  {
    if base.None? then None
    else
      var total := OrZero(base) * (OrZero(pct) / 100.0);
      assert total == base.value * OrZero(pct) / 100.0;
      Some(QEven2(total))
  }

  /** The documented CMV formula: machine value minus purchase taxes plus
      optionals plus purchase freight minus tax credit plus labour, a missing
      term counting as zero. */
  function CmvFormula(valorMaquina: real, impostosCompra: Option<real>, opcionais: Option<real>,
                      freteCompra: Option<real>, credito: Option<real>, maoObra: Option<real>): real
  {
    valorMaquina - OrZero(impostosCompra) + OrZero(opcionais) + OrZero(freteCompra)
      - OrZero(credito) + OrZero(maoObra)
  }

  /** `calcular_cmv`: the running total adjusted term by term. */
  method Cmv(valorMaquina: Option<real>, impostosCompra: Option<real>, opcionais: Option<real>,
             freteCompra: Option<real>, credito: Option<real>, maoObra: Option<real>)
    returns (r: Option<real>)
    ensures r.None? <==> valorMaquina.None?
    ensures r.Some? ==> r.value == QEven2(CmvFormula(valorMaquina.value, impostosCompra, opcionais, freteCompra, credito, maoObra))
  {
    if valorMaquina.None? {
      return None;
    }
    var total := valorMaquina.value;
    if impostosCompra.Some? {
      total := total - impostosCompra.value;
    }
    if opcionais.Some? {
      total := total + opcionais.value;
    }
    if freteCompra.Some? {
      total := total + freteCompra.value;
    }
    if credito.Some? {
      total := total - credito.value;
    }
    if maoObra.Some? {
      total := total + maoObra.value;
    }
    return Some(QEven2(total));
  }

  /** Sums and differences of two-place amounts need no rounding, so the CMV
      of two-place terms is the formula exactly. */
  lemma {:induction false} CmvExactOnCents(valorMaquina: real, impostosCompra: Option<real>, opcionais: Option<real>,
                        freteCompra: Option<real>, credito: Option<real>, maoObra: Option<real>)
    requires IsCents(valorMaquina) && IsCents(OrZero(impostosCompra)) && IsCents(OrZero(opcionais))
    requires IsCents(OrZero(freteCompra)) && IsCents(OrZero(credito)) && IsCents(OrZero(maoObra))
    ensures QEven2(CmvFormula(valorMaquina, impostosCompra, opcionais, freteCompra, credito, maoObra))
      == CmvFormula(valorMaquina, impostosCompra, opcionais, freteCompra, credito, maoObra)
  {
    var s1 := valorMaquina - OrZero(impostosCompra);
    CentsClosed(valorMaquina, OrZero(impostosCompra));
    var s2 := s1 + OrZero(opcionais);
    CentsClosed(s1, OrZero(opcionais));
    var s3 := s2 + OrZero(freteCompra);
    CentsClosed(s2, OrZero(freteCompra));
    var s4 := s3 - OrZero(credito);
    CentsClosed(s3, OrZero(credito));
    CentsClosed(s4, OrZero(maoObra));
    QEven2OfCents(s4 + OrZero(maoObra));
  }

  /** The documented gross-profit formula: sale value minus sale taxes, CMV,
      maintenance contract and technical delivery. */
  function LucroBrutoFormula(valorVenda: real, impostosVenda: Option<real>, cmv: Option<real>,
                             contrato: Option<real>, entregaTecnica: Option<real>): real
  {
    valorVenda - OrZero(impostosVenda) - OrZero(cmv) - OrZero(contrato) - OrZero(entregaTecnica)
  }

  /** `calcular_lucro_bruto`. */
  method LucroBruto(valorVenda: Option<real>, impostosVenda: Option<real>, cmv: Option<real>,
                    contrato: Option<real>, entregaTecnica: Option<real>)
    returns (r: Option<real>)
    ensures r.None? <==> valorVenda.None?
    ensures r.Some? ==> r.value == QEven2(LucroBrutoFormula(valorVenda.value, impostosVenda, cmv, contrato, entregaTecnica))
  {
    if valorVenda.None? {
      return None;
    }
    var total := valorVenda.value;
    if impostosVenda.Some? {
      total := total - impostosVenda.value;
    }
    if cmv.Some? {
      total := total - cmv.value;
    }
    if contrato.Some? {
      total := total - contrato.value;
    }
    if entregaTecnica.Some? {
      total := total - entregaTecnica.value;
    }
    return Some(QEven2(total));
  }

  lemma {:induction false} LucroBrutoExactOnCents(valorVenda: real, impostosVenda: Option<real>, cmv: Option<real>,
                               contrato: Option<real>, entregaTecnica: Option<real>)
    requires IsCents(valorVenda) && IsCents(OrZero(impostosVenda)) && IsCents(OrZero(cmv))
    requires IsCents(OrZero(contrato)) && IsCents(OrZero(entregaTecnica))
    ensures QEven2(LucroBrutoFormula(valorVenda, impostosVenda, cmv, contrato, entregaTecnica))
      == LucroBrutoFormula(valorVenda, impostosVenda, cmv, contrato, entregaTecnica)
  {
    var s1 := valorVenda - OrZero(impostosVenda);
    CentsClosed(valorVenda, OrZero(impostosVenda));
    var s2 := s1 - OrZero(cmv);
    CentsClosed(s1, OrZero(cmv));
    var s3 := s2 - OrZero(contrato);
    CentsClosed(s2, OrZero(contrato));
    CentsClosed(s3, OrZero(entregaTecnica));
    QEven2OfCents(s3 + -OrZero(entregaTecnica));
    assert s3 + -OrZero(entregaTecnica) == s3 - OrZero(entregaTecnica);
  }

  /** `calcular_encargos_comissao`: the charges on gross commission plus
      DSR; `None` when either is missing. */
  function EncargosComissao(bruta: Option<real>, dsr: Option<real>, pct: Option<real>): (r: Option<real>)
    ensures r.None? <==> bruta.None? || dsr.None?
    ensures r.Some? ==> NearestCents(r.value, (bruta.value + dsr.value) * OrZero(pct) / 100.0)
  {
    if bruta.None? || dsr.None? then None
    else
      var somaBase := OrZero(bruta) + OrZero(dsr);
      var total := somaBase * (OrZero(pct) / 100.0);
      assert total == somaBase * OrZero(pct) / 100.0;
      Some(QEven2(total))
  }

  /** `calcular_total_comissao_vendedor`: `None` only when all three parts
      are missing; otherwise a missing part counts as zero. */
  function TotalComissaoVendedor(bruta: Option<real>, dsr: Option<real>, encargos: Option<real>): (r: Option<real>)
    ensures r.None? <==> bruta.None? && dsr.None? && encargos.None?
    ensures r.Some? ==> NearestCents(r.value, OrZero(bruta) + OrZero(dsr) + OrZero(encargos))
  {
    if bruta.None? && dsr.None? && encargos.None? then None
    else Some(QEven2(OrZero(bruta) + OrZero(dsr) + OrZero(encargos)))
  }

  /** Three parts given to two places add up exactly. */
  lemma {:induction false} TotalComissaoExactOnCents(bruta: Option<real>, dsr: Option<real>, encargos: Option<real>)
    requires !(bruta.None? && dsr.None? && encargos.None?)
    requires IsCents(OrZero(bruta)) && IsCents(OrZero(dsr)) && IsCents(OrZero(encargos))
    ensures TotalComissaoVendedor(bruta, dsr, encargos) == Some(OrZero(bruta) + OrZero(dsr) + OrZero(encargos))
  {
    CentsClosed(OrZero(bruta), OrZero(dsr));
    CentsClosed(OrZero(bruta) + OrZero(dsr), OrZero(encargos));
    QEven2OfCents(OrZero(bruta) + OrZero(dsr) + OrZero(encargos));
  }

  /** `x` as a percentage of the sale value, to cents; `None` when either is
      missing or the sale value is zero. This one body is
      `calcular_percentual_comissao_sobre_venda`, `calcular_percentual_rb`
      and `calcular_percentual_margem_rb`. */
  function PercentualSobreVenda(x: Option<real>, valorVenda: Option<real>): (r: Option<real>)
    ensures r.None? <==> x.None? || valorVenda.None? || valorVenda.value == 0.0
    ensures r.Some? ==> NearestCents(r.value, x.value / valorVenda.value * 100.0)
  {
    if x.None? || valorVenda.None? then None
    else
      var baseVenda := OrZero(valorVenda);
      if baseVenda == 0.0 then None
      else Some(QEven2(OrZero(x) / baseVenda * 100.0))
  }

  /** The documented contribution-margin formula: gross profit minus sale
      freight, plus the sale tax credit, minus financing cost, guarantee
      letter, courtesy and the seller's total commission. */
  function MargemFormula(lucroBruto: real, freteVenda: Option<real>, creditoVenda: Option<real>,
                         custoFinanceiro: Option<real>, cartaFianca: Option<real>, cortesia: Option<real>,
                         comissaoTotal: Option<real>): real
  {
    lucroBruto - OrZero(freteVenda) + OrZero(creditoVenda) - OrZero(custoFinanceiro)
      - OrZero(cartaFianca) - OrZero(cortesia) - OrZero(comissaoTotal)
  }

  /** `calcular_margem_contribuicao`. */
  method MargemContribuicao(lucroBruto: Option<real>, freteVenda: Option<real>, creditoVenda: Option<real>,
                            custoFinanceiro: Option<real>, cartaFianca: Option<real>, cortesia: Option<real>,
                            comissaoTotal: Option<real>)
    returns (r: Option<real>)
    ensures r.None? <==> lucroBruto.None?
    ensures r.Some? ==> r.value == QEven2(MargemFormula(lucroBruto.value, freteVenda, creditoVenda,
                                                        custoFinanceiro, cartaFianca, cortesia, comissaoTotal))
  {
    if lucroBruto.None? {
      return None;
    }
    var total := lucroBruto.value;
    if freteVenda.Some? {
      total := total - freteVenda.value;
    }
    if creditoVenda.Some? {
      total := total + creditoVenda.value;
    }
    if custoFinanceiro.Some? {
      total := total - custoFinanceiro.value;
    }
    if cartaFianca.Some? {
      total := total - cartaFianca.value;
    }
    if cortesia.Some? {
      total := total - cortesia.value;
    }
    if comissaoTotal.Some? {
      total := total - comissaoTotal.value;
    }
    return Some(QEven2(total));
  }
}
