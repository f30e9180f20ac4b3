/** `app/services/margem_service.py`: the margin engine.  From the sale form,
    the parameter table and the DN table it computes taxes, cost of goods
    (CMV), gross profit, the salesperson's commission, the payment flow with
    its financing cost, and the contribution margin.  Money is rounded to
    cents and ratios to millionths, both ROUND_HALF_UP (`Rounding.Q2`,
    `Rounding.Q6`).  The fractional power `(1 + rate) ** (days / 30)` is the
    parameter `pow`. */
module MargemService {
  import opened PyText
  import opened Rounding
  import opened ConfigDn
  import opened ReservaItemFluxo
  import opened MargemRepository

  /** Why a calculation fails: the four `CalculoMargemError`s `calcular`
      raises, and the decimal division by zero the flow builder can meet. */
  datatype Erro = DadosInvalidos | DnNaoEncontrado | VendaNaoPositiva | EntradaInvalida | DivisaoPorZero

  datatype Result<T> = Ok(value: T) | Err(error: Erro)

  // ---------------------------------------------------------------------
  // _criar_parcela

  /** The share of the financed base one flow row represents. */
  function PercentualBase(nominal: real, base: real): (r: real)
    ensures IsMicros(r)
    ensures base <= 0.0 ==> r == 0.0
    ensures base > 0.0 && 0.0 <= nominal <= base ==> 0.0 <= r <= 1.0
  {
    if base <= 0.0 then 0.0
    else
      var x := nominal / base;
      assert 0.0 <= nominal <= base ==> 0.0 <= Q6(x) <= 1.0 by {
        if 0.0 <= nominal <= base {
          assert 0.0 <= x <= 1.0;
          Q6Monotone(0.0, x);
          Q6Monotone(x, 1.0);
          Q6OfMicros(0.0);
          Q6OfMicros(1.0);
        }
      }
      Q6(x)
  }

  /** The effective rate for a term of `prazo` days at a monthly rate
      `taxa`: `(1 + taxa) ** (prazo / 30) - 1`, rounded to millionths. */
  function TaxaEfetiva(pow: (real, real) -> real, taxa: real, prazo: int): (r: real)
    ensures IsMicros(r)
  {
    Q6(pow(1.0 + taxa, prazo as real / 30.0) - 1.0)
  }

  /** `_criar_parcela`: one flow row.  The present value discounts the
      nominal value at the effective rate; the financing cost is their
      difference; each is rounded to cents from the unrounded values.  An
      effective rate of -1 makes the discount a division by zero. */
  function CriarParcela(pow: (real, real) -> real, tipo: int, numero: int, prazo: int,
                        nominal: real, base: real, taxa: real): (r: Result<FluxoParcela>)
    ensures r.Err? <==> TaxaEfetiva(pow, taxa, prazo) == -1.0
    ensures r.Err? ==> r.error == DivisaoPorZero
    ensures r.Ok? ==> r.value.tipoParcela == tipo && r.value.numeroParcela == numero && r.value.prazoDias == prazo
    ensures r.Ok? ==> r.value.valorNominal == Q2(nominal) && r.value.percentualBase == PercentualBase(nominal, base)
    ensures r.Ok? ==> r.value.taxaEfetiva == TaxaEfetiva(pow, taxa, prazo) && EscalasValidas(r.value)
    ensures r.Ok? ==> var vp := nominal / (1.0 + r.value.taxaEfetiva);
                      && vp - 0.005 <= r.value.valorPresente <= vp + 0.005
                      && (nominal - vp) - 0.005 <= r.value.custoFinanceiro <= (nominal - vp) + 0.005
  {
    var taxaEfetiva := TaxaEfetiva(pow, taxa, prazo);
    if 1.0 + taxaEfetiva == 0.0 then Err(DivisaoPorZero)
    else
      var valorPresente := nominal / (1.0 + taxaEfetiva);
      var custoFinanceiro := nominal - valorPresente;
      Ok(FluxoParcela(tipo, numero, prazo, PercentualBase(nominal, base), Q2(nominal),
                      taxaEfetiva, Q2(valorPresente), Q2(custoFinanceiro)))
  }

  /** A rate that grows with the term, as any power of `1 + taxa` with a
      non-negative rate does, never gives a negative effective rate. */
  lemma {:induction false} TaxaEfetivaNaoNegativa(pow: (real, real) -> real, taxa: real, prazo: int)
    requires forall b: real, e: real :: b >= 1.0 && e >= 0.0 ==> pow(b, e) >= 1.0
    requires taxa >= 0.0 && prazo >= 0
    ensures TaxaEfetiva(pow, taxa, prazo) >= 0.0
  {
    var fator := pow(1.0 + taxa, prazo as real / 30.0);
    assert fator >= 1.0;
    Q6Monotone(0.0, fator - 1.0);
    Q6OfMicros(0.0);
  }

  /** The two roundings drift apart by at most a cent: the stored cost is
      within 0.01 of nominal minus present value as stored. */
  lemma {:induction false} CustoQuaseNominalMenosPresente(pow: (real, real) -> real, tipo: int, numero: int, prazo: int,
                                       nominal: real, base: real, taxa: real)
    requires IsCents(nominal)
    requires CriarParcela(pow, tipo, numero, prazo, nominal, base, taxa).Ok?
    ensures var p := CriarParcela(pow, tipo, numero, prazo, nominal, base, taxa).value;
            -0.01 <= p.custoFinanceiro - (p.valorNominal - p.valorPresente) <= 0.01
  {
    Q2OfCents(nominal);
  }

  /** The cost and the present value are rounded separately, so the stored
      cost need not equal nominal minus stored present value: at an effective
      rate of 100%, 100.01 discounts to 50.005 exactly, a tie that rounds up
      both in the present value and in the cost, giving 50.01 each. */
  lemma {:induction false} CustoArredondadoSeparado()
    ensures var p := CriarParcela((b, e) => 2.0, Parcela, 1, 30, 100.01, 1000.0, 1.0);
            && p.Ok? && p.value.valorNominal == 100.01
            && p.value.valorPresente == 50.01 && p.value.custoFinanceiro == 50.01
            && p.value.custoFinanceiro != p.value.valorNominal - p.value.valorPresente
  {
    var f := (b: real, e: real) => 2.0;
    assert TaxaEfetiva(f, 1.0, 30) == 1.0 by {
      assert f(2.0, 1.0) == 2.0;
      Q6OfMicros(1.0);
    }
    assert 100.01 / (1.0 + 1.0) == 50.005;
    assert (50.005 * 100.0 + 0.5).Floor == 5001;
    Q2OfCents(100.01);
  }

  /** With a non-negative monthly rate, a non-negative term and a power that
      is at least 1 on such arguments, the row is always computed, its rate
      is non-negative, and its present value and cost lie between 0 and the
      nominal value. */
  lemma {:induction false} CriarParcelaSemDesconto(pow: (real, real) -> real, tipo: int, numero: int, prazo: int,
                                nominal: real, base: real, taxa: real)
    requires forall b: real, e: real :: b >= 1.0 && e >= 0.0 ==> pow(b, e) >= 1.0
    requires taxa >= 0.0 && prazo >= 0 && IsCents(nominal) && nominal >= 0.0
    ensures CriarParcela(pow, tipo, numero, prazo, nominal, base, taxa).Ok?
    ensures var p := CriarParcela(pow, tipo, numero, prazo, nominal, base, taxa).value;
            && p.taxaEfetiva >= 0.0
            && 0.0 <= p.valorPresente <= p.valorNominal
            && 0.0 <= p.custoFinanceiro <= p.valorNominal
  {
    var te := TaxaEfetiva(pow, taxa, prazo);
    TaxaEfetivaNaoNegativa(pow, taxa, prazo);
    var vp := nominal / (1.0 + te);
    QuocienteNoDividendo(nominal, 1.0 + te);
    Q2Monotone(0.0, vp);
    Q2Monotone(vp, nominal);
    Q2Monotone(0.0, nominal - vp);
    Q2Monotone(nominal - vp, nominal);
    Q2OfCents(0.0);
    Q2OfCents(nominal);
  }

  // ---------------------------------------------------------------------
  // _montar_fluxo_pagamento

  /** One entry of the payment plan: kind, number, term and nominal value. */
  datatype Lancamento = Lancamento(tipo: int, numero: int, prazo: int, nominal: real)

  /** The amount left for the installments. */
  function Restante(base: real, entrada: real): (r: real)
    ensures r == base - (if entrada > 0.0 then entrada else 0.0)
  {
    if entrada > 0.0 then base - entrada else base
  }

  /** The value every installment carries. */
  function ValorParcela(base: real, entrada: real, n: int): (r: real)
    ensures IsCents(r)
    ensures n > 0 ==> var x := Restante(base, entrada) / n as real;
                      x - 0.005 <= r <= x + 0.005
  {
    if n > 0 then Q2(Restante(base, entrada) / n as real) else 0.0
  }

  /** The plan the flow builder follows: a down payment (kind 1, number 0,
      at the first term) when there is one, then installments 1..n at the
      first term plus n intervals, all with the same value. */
  function Plano(base: real, entrada: real, n: nat, prazoPrimeira: int, intervalo: int): (r: seq<Lancamento>)
    ensures |r| == n + (if entrada > 0.0 then 1 else 0)
  {
    (if entrada > 0.0 then [Lancamento(Entrada, 0, prazoPrimeira, entrada)] else [])
    + seq(n, k requires 0 <= k < n => Lancamento(Parcela, k + 1, prazoPrimeira + intervalo * (k + 1), ValorParcela(base, entrada, n)))
  }

  /** Entry `j` of the plan. */
  lemma {:induction false} PlanoIndice(base: real, entrada: real, n: nat, prazoPrimeira: int, intervalo: int, j: int)
    requires 0 <= j < |Plano(base, entrada, n, prazoPrimeira, intervalo)|
    ensures var d := if entrada > 0.0 then 1 else 0;
            Plano(base, entrada, n, prazoPrimeira, intervalo)[j] ==
              if j < d then Lancamento(Entrada, 0, prazoPrimeira, entrada)
              else Lancamento(Parcela, j - d + 1, prazoPrimeira + intervalo * (j - d + 1), ValorParcela(base, entrada, n))
  {
  }

  /** Rows are numbered consecutively from 0 with a down payment and from 1
      without; number 0 is exactly the down payment; each term is the first
      term plus `numero` intervals, so with a non-negative interval the terms
      never decrease. */
  lemma {:induction false} PlanoForma(base: real, entrada: real, n: nat, prazoPrimeira: int, intervalo: int)
    ensures var p := Plano(base, entrada, n, prazoPrimeira, intervalo);
            var primeiro := if entrada > 0.0 then 0 else 1;
            && (forall j :: 0 <= j < |p| ==> p[j].numero == j + primeiro)
            && (forall j :: 0 <= j < |p| ==> (p[j].tipo == Entrada <==> p[j].numero == 0))
            && (forall j :: 0 <= j < |p| ==> p[j].tipo == Entrada || p[j].tipo == Parcela)
            && (forall j :: 0 <= j < |p| ==> p[j].prazo == prazoPrimeira + intervalo * p[j].numero)
            && (forall j :: 0 <= j < |p| && p[j].tipo == Parcela ==> p[j].nominal == ValorParcela(base, entrada, n))
            && (entrada > 0.0 ==> p[0].nominal == entrada)
            && (intervalo >= 0 ==> forall i, j :: 0 <= i <= j < |p| ==> p[i].prazo <= p[j].prazo)
  {
    var p := Plano(base, entrada, n, prazoPrimeira, intervalo);
    var primeiro := if entrada > 0.0 then 0 else 1;
    forall j | 0 <= j < |p|
      ensures p[j].numero == j + primeiro
      ensures p[j].tipo == Entrada <==> p[j].numero == 0
      ensures p[j].tipo == Entrada || p[j].tipo == Parcela
      ensures p[j].prazo == prazoPrimeira + intervalo * p[j].numero
      ensures p[j].tipo == Parcela ==> p[j].nominal == ValorParcela(base, entrada, n)
    {
      PlanoIndice(base, entrada, n, prazoPrimeira, intervalo, j);
    }
    if entrada > 0.0 {
      PlanoIndice(base, entrada, n, prazoPrimeira, intervalo, 0);
    }
    if intervalo >= 0 {
      forall i, j | 0 <= i <= j < |p|
        ensures p[i].prazo <= p[j].prazo
      {
        assert p[i].numero <= p[j].numero;
        MultiplicaMonotono(intervalo, p[i].numero, p[j].numero);
      }
    }
  }

  lemma {:induction false} MultiplicaMonotono(c: int, x: int, y: int)
    requires c >= 0 && x <= y
    ensures c * x <= c * y
  {
  }

  /** Sum of the nominal values of a plan. */
  function SomaNominal(p: seq<Lancamento>): real
    decreases |p|
  {
    if p == [] then 0.0 else SomaNominal(p[..|p| - 1]) + p[|p| - 1].nominal
  }

  lemma {:induction false} SomaNominalIguais(p: seq<Lancamento>, v: real)
    requires forall j :: 0 <= j < |p| ==> p[j].nominal == v
    ensures SomaNominal(p) == |p| as real * v
    decreases |p|
  {
    if p != [] {
      SomaNominalIguais(p[..|p| - 1], v);
    }
  }

  lemma {:induction false} SomaNominalConcat(a: seq<Lancamento>, b: seq<Lancamento>)
    ensures SomaNominal(a + b) == SomaNominal(a) + SomaNominal(b)
    decreases |b|
  {
    if b == [] {
      assert a + b == a;
    } else {
      assert (a + b)[..|a + b| - 1] == a + b[..|b| - 1];
      assert (a + b)[|a + b| - 1] == b[|b| - 1];
      SomaNominalConcat(a, b[..|b| - 1]);
    }
  }

  /** The plan's total is the down payment (if any) plus `n` equal
      installments. */
  lemma {:induction false} SomaPlano(base: real, entrada: real, n: nat, prazoPrimeira: int, intervalo: int)
    ensures SomaNominal(Plano(base, entrada, n, prazoPrimeira, intervalo))
            == (if entrada > 0.0 then entrada else 0.0) + n as real * ValorParcela(base, entrada, n)
  {
    var v := ValorParcela(base, entrada, n);
    var cabeca: seq<Lancamento> := if entrada > 0.0 then [Lancamento(Entrada, 0, prazoPrimeira, entrada)] else [];
    var parcelas := seq(n, k requires 0 <= k < n => Lancamento(Parcela, k + 1, prazoPrimeira + intervalo * (k + 1), v));
    assert Plano(base, entrada, n, prazoPrimeira, intervalo) == cabeca + parcelas;
    SomaNominalConcat(cabeca, parcelas);
    SomaNominalIguais(parcelas, v);
    if entrada > 0.0 {
      assert cabeca[..0] == [];
    }
  }

  /** `n` roundings of `resto / n` to within half a cent stay within `n`
      half-cents of `resto`. */
  lemma {:induction false} ArredondamentoAcumulado(resto: real, n: nat, v: real)
    requires n > 0
    requires resto / n as real - 0.005 <= v <= resto / n as real + 0.005
    ensures resto - n as real * 0.005 <= n as real * v <= resto + n as real * 0.005
  {
    var m := n as real;
    var x := resto / m;
    assert m * x == resto;
    MultiplicaMonotonoReal(m, x - 0.005, v);
    MultiplicaMonotonoReal(m, v, x + 0.005);
    assert m * (x - 0.005) == resto - m * 0.005;
    assert m * (x + 0.005) == resto + m * 0.005;
  }

  /** Sharing a non-negative amount among one or more parts gives each part
      at most the whole. */
  lemma {:induction false} QuocienteNoDividendo(a: real, d: real)
    requires a >= 0.0 && d >= 1.0
    ensures 0.0 <= a / d <= a
  {
    var q := a / d;
    assert q * d == a;
    assert q >= 0.0;
    MultiplicaMonotonoReal(q, 1.0, d);
  }

  lemma {:induction false} MultiplicaMonotonoReal(c: real, x: real, y: real)
    requires c >= 0.0 && x <= y
    ensures c * x <= c * y
  {
    assert c * y - c * x == c * (y - x);
  }

  /** Down payment plus installments give back the base, up to half a cent
      per installment: the only loss is the rounding of the installment
      value. */
  lemma {:induction false} PlanoReconstroiBase(base: real, entrada: real, n: nat, prazoPrimeira: int, intervalo: int)
    requires n > 0
    ensures var s := SomaNominal(Plano(base, entrada, n, prazoPrimeira, intervalo));
            base - n as real * 0.005 <= s <= base + n as real * 0.005
  {
    SomaPlano(base, entrada, n, prazoPrimeira, intervalo);
    ArredondamentoAcumulado(Restante(base, entrada), n, ValorParcela(base, entrada, n));
  }

  /** A plan entry turned into a flow row. */
  function Criar(pow: (real, real) -> real, l: Lancamento, base: real, taxa: real): Result<FluxoParcela> {
    CriarParcela(pow, l.tipo, l.numero, l.prazo, l.nominal, base, taxa)
  }

  /** `r` is what building the rows of `plano` in order gives: every row, or
      the division by zero one of them meets. */
  predicate FluxoDoPlano(r: Result<seq<FluxoParcela>>, pow: (real, real) -> real,
                         plano: seq<Lancamento>, base: real, taxa: real)
  {
    && (r.Ok? <==> forall j :: 0 <= j < |plano| ==> Criar(pow, plano[j], base, taxa).Ok?)
    && (r.Err? ==> r.error == DivisaoPorZero)
    && (r.Ok? ==> |r.value| == |plano|
                  && forall j :: 0 <= j < |plano| ==> Criar(pow, plano[j], base, taxa) == Ok(r.value[j]))
  }

  /** `_montar_fluxo_pagamento`: nothing for a non-positive base or a
      negative number of installments; otherwise the rows of `Plano`, the
      down payment first. */
  method MontarFluxoPagamento(pow: (real, real) -> real, base: real, entrada: real, qtdParcelas: int,
                              prazoPrimeira: int, intervalo: int, taxa: real)
    returns (r: Result<seq<FluxoParcela>>)
    ensures base <= 0.0 || qtdParcelas < 0 ==> r == Ok([])
    ensures base > 0.0 && qtdParcelas >= 0 ==>
              FluxoDoPlano(r, pow, Plano(base, entrada, qtdParcelas, prazoPrimeira, intervalo), base, taxa)
  {
    var fluxo: seq<FluxoParcela> := [];
    if base <= 0.0 || qtdParcelas < 0 {
      return Ok(fluxo);
    }
    ghost var plano := Plano(base, entrada, qtdParcelas, prazoPrimeira, intervalo);
    ghost var d := if entrada > 0.0 then 1 else 0;
    var restante := base;
    if entrada > 0.0 {
      restante := restante - entrada;
      var p := CriarParcela(pow, Entrada, 0, prazoPrimeira, entrada, base, taxa);
      assert Criar(pow, plano[0], base, taxa) == p;
      if p.Err? {
        return Err(p.error);
      }
      fluxo := fluxo + [p.value];
    }
    var valorParcela := if qtdParcelas > 0 then Q2(restante / qtdParcelas as real) else 0.0;
    assert valorParcela == ValorParcela(base, entrada, qtdParcelas);
    var i := 1;
    while i <= qtdParcelas
      invariant 1 <= i <= qtdParcelas + 1
      invariant |fluxo| == d + i - 1
      invariant forall j :: 0 <= j < |fluxo| ==> Criar(pow, plano[j], base, taxa) == Ok(fluxo[j])
    {
      var prazo := prazoPrimeira + intervalo * i;
      var p := CriarParcela(pow, Parcela, i, prazo, valorParcela, base, taxa);
      assert plano[d + i - 1] == Lancamento(Parcela, i, prazo, valorParcela);
      if p.Err? {
        return Err(p.error);
      }
      fluxo := fluxo + [p.value];
      i := i + 1;
    }
    return Ok(fluxo);
  }

  /** The down payment the engine passes in lies between 0 and the base. */
  lemma {:induction false} EntradaNaBase(base: real, perc: real)
    requires IsCents(base) && base > 0.0 && 0.0 <= perc <= 1.0
    ensures 0.0 <= Q2Mul(base, perc) <= base
  {
    var x := base * perc;
    assert 0.0 <= x <= base by {
      MultiplicaMonotonoReal(base, 0.0, perc);
      MultiplicaMonotonoReal(base, perc, 1.0);
    }
    Q2Monotone(0.0, x);
    Q2Monotone(x, base);
    Q2OfCents(0.0);
    Q2OfCents(base);
  }

  /** Every plan value lies between 0 and the base when the down payment
      does. */
  lemma {:induction false} NominaisNaBase(base: real, entrada: real, n: nat, prazoPrimeira: int, intervalo: int)
    requires IsCents(base) && base > 0.0 && 0.0 <= entrada <= base
    ensures forall j :: 0 <= j < |Plano(base, entrada, n, prazoPrimeira, intervalo)| ==>
              0.0 <= Plano(base, entrada, n, prazoPrimeira, intervalo)[j].nominal <= base
  {
    var p := Plano(base, entrada, n, prazoPrimeira, intervalo);
    PlanoForma(base, entrada, n, prazoPrimeira, intervalo);
    if n > 0 {
      var resto := Restante(base, entrada);
      var x := resto / n as real;
      assert 0.0 <= resto <= base;
      QuocienteNoDividendo(resto, n as real);
      Q2Monotone(0.0, x);
      Q2Monotone(x, base);
      Q2OfCents(0.0);
      Q2OfCents(base);
    }
  }

  /** Hence every row the builder produces satisfies the table's check
      constraints and scales: kind 1 with number 0 or kind 2 with a positive
      number, and a base share in [0, 1]. */
  lemma {:induction false} FluxoRespeitaTabela(pow: (real, real) -> real, base: real, entrada: real, n: nat,
                            prazoPrimeira: int, intervalo: int, taxa: real, r: Result<seq<FluxoParcela>>)
    requires IsCents(base) && base > 0.0 && 0.0 <= entrada <= base
    requires r.Ok? && FluxoDoPlano(r, pow, Plano(base, entrada, n, prazoPrimeira, intervalo), base, taxa)
    ensures forall j :: 0 <= j < |r.value| ==> FluxoValido(r.value[j])
  {
    var fluxo := r.value;
    var p := Plano(base, entrada, n, prazoPrimeira, intervalo);
    PlanoForma(base, entrada, n, prazoPrimeira, intervalo);
    NominaisNaBase(base, entrada, n, prazoPrimeira, intervalo);
    forall j | 0 <= j < |fluxo|
      ensures FluxoValido(fluxo[j])
    {
      assert Criar(pow, p[j], base, taxa) == Ok(fluxo[j]);
      assert p[j].tipo == Parcela ==> p[j].numero >= 1;
    }
  }

  /** Sum of the financing costs of a flow. */
  function SomaCustos(fluxo: seq<FluxoParcela>): real
    decreases |fluxo|
  {
    if fluxo == [] then 0.0 else SomaCustos(fluxo[..|fluxo| - 1]) + fluxo[|fluxo| - 1].custoFinanceiro
  }

  /** The costs are whole cents, so their sum is too and rounding it changes
      nothing. */
  lemma {:induction false} SomaCustosCentavos(fluxo: seq<FluxoParcela>)
    requires forall j :: 0 <= j < |fluxo| ==> IsCents(fluxo[j].custoFinanceiro)
    ensures IsCents(SomaCustos(fluxo)) && Q2(SomaCustos(fluxo)) == SomaCustos(fluxo)
    decreases |fluxo|
  {
    if fluxo == [] {
      Q2OfCents(0.0);
    } else {
      var init := fluxo[..|fluxo| - 1];
      assert forall j :: 0 <= j < |init| ==> init[j] == fluxo[j];
      SomaCustosCentavos(init);
      CentsClosed(SomaCustos(init), fluxo[|fluxo| - 1].custoFinanceiro);
      Q2OfCents(SomaCustos(fluxo));
    }
  }

  // ---------------------------------------------------------------------
  // calcular and its helpers

  /** Python's `x or d` on an optional decimal: `d` when `x` is missing or
      zero. */
  function OuReal(x: Option<real>, d: real): (r: real)
    ensures (x.None? || x.value == 0.0) ==> r == d
    ensures (x.Some? && x.value != 0.0) ==> r == x.value
  {
    if x.Some? && x.value != 0.0 then x.value else d
  }

  /** Python's `x or d` on an optional integer. */
  function OuInt(x: Option<int>, d: int): (r: int)
    ensures (x.None? || x.value == 0) ==> r == d
    ensures (x.Some? && x.value != 0) ==> r == x.value
  {
    if x.Some? && x.value != 0 then x.value else d
  }

  /** Python's `x or d` on an optional date (a date is never false). */
  function OuData(x: Option<Data>, d: Data): (r: Data)
    ensures x.None? ==> r == d
    ensures x.Some? ==> r == x.value
  {
    if x.Some? then x.value else d
  }

  /** `_resolver_ano_mes_dn`: the year and the month of the date; the month
      is always given, and is 1..12 for a real date. */
  function ResolverAnoMesDn(d: Data): (r: (int, Option<int>))
    ensures r.0 == d.ano && r.1.Some? && r.1.value == d.mes
    ensures DataValida(d) ==> 1 <= r.1.value <= 12
  {
    (d.ano, Some(d.mes))
  }

  /** `_obter_param_ou_default`: the value the parameter table gives, or
      exactly `padrao` when it gives none. */
  function ObterParamOuDefault(linhas: seq<ParametroRow>, q: ConsultaParametro, padrao: real): (r: real)
    ensures ObterParametroDecimal(linhas, q).None? ==> r == padrao
    ensures ObterParametroDecimal(linhas, q).Some? ==> r == ObterParametroDecimal(linhas, q).value
    ensures (forall i :: 0 <= i < |linhas| ==> !Elegivel(linhas[i], q)) ==> r == padrao
  {
    var v := ObterParametroDecimal(linhas, q);
    if v.None? then padrao else v.value
  }

  /** A NULL value in the most specific qualifying row gives the default,
      even when a less specific row holds a value. */
  lemma {:induction false} ParametroNuloUsaDefault(linhas: seq<ParametroRow>, q: ConsultaParametro, e: int, padrao: real)
    requires 0 <= e < |linhas| && Elegivel(linhas[e], q) && linhas[e].valorDecimal.None?
    requires forall j :: 0 <= j < |linhas| && j != e && Elegivel(linhas[j], q) ==> Score(linhas[j]) < Score(linhas[e])
    ensures ObterParamOuDefault(linhas, q, padrao) == padrao
  {
    NuloEspecificoVence(linhas, q, e);
  }

  /** The sale form, as `calcular` reads it; `valido` is the verdict of the
      form's own validation. */
  datatype FormMargem = FormMargem(
    valido: bool,
    dataReserva: Option<Data>,
    previsaoEntrega: Option<Data>,
    produtoId: int,
    filialId: int,
    tipoVendaId: int,
    modalidadeFinId: Option<int>,
    possuiAf: bool,
    quantidade: Option<int>,
    valorVendaUnitario: Option<real>,
    percEntrada: Option<real>,
    qtdParcelas: Option<int>,
    prazoPrimeiraParcelaDias: Option<int>,
    intervaloParcelasDias: Option<int>,
    valorOpcionais: Option<real>,
    custoMaoObra: Option<real>,
    freteCompra: Option<real>,
    freteVenda: Option<real>,
    contratoManutencao: Option<real>,
    percPdiGarantia: Option<real>,
    percCartaFianca: Option<real>,
    valorCortesia: Option<real>)

  /** The modality, with the "no modality" choice -1 read as none. */
  function Modalidade(form: FormMargem): (r: Option<int>)
    ensures r.None? <==> form.modalidadeFinId.None? || form.modalidadeFinId.value == -1
    ensures r.Some? ==> r == form.modalidadeFinId
  {
    if form.modalidadeFinId.None? || form.modalidadeFinId.value == -1 then None else form.modalidadeFinId
  }

  /** The reservation date, today when the form has none. */
  function DataReserva(form: FormMargem, hoje: Data): Data {
    OuData(form.dataReserva, hoje)
  }

  /** The DN month is taken from the expected delivery when given, else
      from the reservation date. */
  function DataDn(form: FormMargem, hoje: Data): (d: Data)
    ensures form.previsaoEntrega.Some? ==> d == form.previsaoEntrega.value
    ensures form.previsaoEntrega.None? && form.dataReserva.Some? ==> d == form.dataReserva.value
    ensures form.previsaoEntrega.None? && form.dataReserva.None? ==> d == hoje
  {
    OuData(form.previsaoEntrega, DataReserva(form, hoje))
  }

  /** The DN lookup `calcular` makes. */
  function ConsultaDnDe(form: FormMargem, hoje: Data): ConsultaDn {
    var (ano, mes) := ResolverAnoMesDn(DataDn(form, hoje));
    ConsultaDn(form.produtoId, form.filialId, form.tipoVendaId, Modalidade(form), form.possuiAf, ano, mes)
  }

  /** With real dates and a valid DN table, the DN found is the one for the
      year and month of the delivery (or reservation) date: never a
      year-only row. */
  lemma {:induction false} DnDoMesPedido(form: FormMargem, hoje: Data, dns: seq<DnRow>)
    requires DataValida(hoje)
    requires form.dataReserva.Some? ==> DataValida(form.dataReserva.value)
    requires form.previsaoEntrega.Some? ==> DataValida(form.previsaoEntrega.value)
    requires forall i :: 0 <= i < |dns| ==> LinhaValida(dns[i])
    ensures var r := ObterConfigDn(dns, ConsultaDnDe(form, hoje));
            r.Some? ==> r.value.ano == DataDn(form, hoje).ano && r.value.mes == Some(DataDn(form, hoje).mes)
  {
    var d := DataDn(form, hoje);
    assert DataValida(d);
    ConfigDnMesPedido(dns, ConsultaDnDe(form, hoje), d.mes);
  }

  /** `valor_venda_total`: quantity times unit price, in cents. */
  function VendaTotal(form: FormMargem): (r: real)
    ensures IsCents(r)
  {
    Q2Mul(OuInt(form.quantidade, 0) as real, OuReal(form.valorVendaUnitario, 0.0))
  }

  /** A form with no quantity or no price has a zero total, which
      `calcular` rejects. */
  lemma {:induction false} VendaSemQuantidade(form: FormMargem)
    requires form.quantidade.None? || form.valorVendaUnitario.None?
    ensures VendaTotal(form) == 0.0
  {
    Q2OfCents(0.0);
  }

  function PercEntrada(form: FormMargem): real {
    OuReal(form.percEntrada, 0.0)
  }

  /** The parameter codes of `tb_cm_margem_parametro_geral`. */
  const ParamIcmsVenda: string := "ICMS_VENDA"
  const ParamPisCofinsVenda: string := "PIS_COFINS_VENDA"
  const ParamIcmsPisCofinsCompra: string := "ICMS_PIS_COFINS_COMPRA"
  const ParamPisCofinsCompra: string := "PIS_COFINS_COMPRA"
  const ParamCreditoImpFreteCompra: string := "CREDITO_IMPOSTOS_FRETE_COMPRA"
  const ParamCreditoImpFreteVenda: string := "CREDITO_IMPOSTOS_FRETE_VENDA"
  const ParamPdiGarantia: string := "PDI_GARANTIA_PERC"
  const ParamTaxaJurosMensal: string := "TAXA_JUROS_MENSAL"
  const ParamComissaoBruta: string := "COMISSAO_BRUTA_PERC"
  const ParamComissaoDsr: string := "COMISSAO_DSR_PERC"
  const ParamComissaoEncargos: string := "COMISSAO_ENCARGOS_PERC"
  const ParamCartaFianca: string := "CARTA_FIANCA_PERC"

  /** The twelve rates `calcular` looks up. */
  datatype Parametros = Parametros(
    icmsVenda: real,
    pisCofinsVenda: real,
    icmsPisCofinsCompra: real,
    pisCofinsCompra: real,
    creditoFreteCompra: real,
    creditoFreteVenda: real,
    pdiGarantia: real,
    taxaJurosMensal: real,
    comissaoBruta: real,
    comissaoDsr: real,
    comissaoEncargos: real,
    cartaFianca: real)

  /** The rates when the table has none. */
  const Padroes: Parametros :=
    Parametros(0.03, 0.00, 0.03, 0.00, 0.00, 0.00, 0.02, 0.0172, 0.006, 0.20, 0.3595, 0.00)

  /** The lookup for one code, on the reservation date and the form's
      branch, sale type and modality. */
  function ConsultaParam(form: FormMargem, hoje: Data, codigo: string): ConsultaParametro {
    ConsultaParametro(codigo, DataReserva(form, hoje), Some(form.filialId), Some(form.tipoVendaId), Modalidade(form))
  }

  /** Every rate, from the table or its default. */
  function ResolverParametros(linhas: seq<ParametroRow>, form: FormMargem, hoje: Data): (p: Parametros)
    ensures linhas == [] ==> p == Padroes
  {
    Parametros(
      ObterParamOuDefault(linhas, ConsultaParam(form, hoje, ParamIcmsVenda), Padroes.icmsVenda),
      ObterParamOuDefault(linhas, ConsultaParam(form, hoje, ParamPisCofinsVenda), Padroes.pisCofinsVenda),
      ObterParamOuDefault(linhas, ConsultaParam(form, hoje, ParamIcmsPisCofinsCompra), Padroes.icmsPisCofinsCompra),
      ObterParamOuDefault(linhas, ConsultaParam(form, hoje, ParamPisCofinsCompra), Padroes.pisCofinsCompra),
      ObterParamOuDefault(linhas, ConsultaParam(form, hoje, ParamCreditoImpFreteCompra), Padroes.creditoFreteCompra),
      ObterParamOuDefault(linhas, ConsultaParam(form, hoje, ParamCreditoImpFreteVenda), Padroes.creditoFreteVenda),
      ObterParamOuDefault(linhas, ConsultaParam(form, hoje, ParamPdiGarantia), Padroes.pdiGarantia),
      ObterParamOuDefault(linhas, ConsultaParam(form, hoje, ParamTaxaJurosMensal), Padroes.taxaJurosMensal),
      ObterParamOuDefault(linhas, ConsultaParam(form, hoje, ParamComissaoBruta), Padroes.comissaoBruta),
      ObterParamOuDefault(linhas, ConsultaParam(form, hoje, ParamComissaoDsr), Padroes.comissaoDsr),
      ObterParamOuDefault(linhas, ConsultaParam(form, hoje, ParamComissaoEncargos), Padroes.comissaoEncargos),
      ObterParamOuDefault(linhas, ConsultaParam(form, hoje, ParamCartaFianca), Padroes.cartaFianca))
  }

  /** `CalculoMargemResultado`. */
  datatype CalculoMargemResultado = CalculoMargemResultado(
    valorVendaTotal: real,
    impostosVendaTotal: real,
    valorDn: real,
    impostosCompraTotal: real,
    cmvTotal: real,
    valorOpcionais: real,
    freteCompra: real,
    creditoImpostosFreteCompra: real,
    custoMaoObra: real,
    contratoManutencao: real,
    valorPdiGarantia: real,
    lucroBrutoValor: real,
    margemBrutaPercent: real,
    freteVenda: real,
    creditoImpostosFreteVenda: real,
    custoFinanceiroTotal: real,
    valorCartaFianca: real,
    valorCortesia: real,
    comissaoBruta: real,
    comissaoDsr: real,
    comissaoEncargos: real,
    comissaoTotal: real,
    margemContribValor: real,
    margemContribPercent: real,
    fluxoParcelas: seq<FluxoParcela>)

  /** Every amount of the result is a whole number of cents and every
      ratio a whole number of millionths. */
  predicate EmCentavos(res: CalculoMargemResultado) {
    && IsCents(res.valorVendaTotal) && IsCents(res.impostosVendaTotal) && IsCents(res.valorDn)
    && IsCents(res.impostosCompraTotal) && IsCents(res.cmvTotal) && IsCents(res.valorOpcionais)
    && IsCents(res.freteCompra) && IsCents(res.creditoImpostosFreteCompra) && IsCents(res.custoMaoObra)
    && IsCents(res.contratoManutencao) && IsCents(res.valorPdiGarantia) && IsCents(res.lucroBrutoValor)
    && IsCents(res.freteVenda) && IsCents(res.creditoImpostosFreteVenda) && IsCents(res.custoFinanceiroTotal)
    && IsCents(res.valorCartaFianca) && IsCents(res.valorCortesia) && IsCents(res.comissaoBruta)
    && IsCents(res.comissaoDsr) && IsCents(res.comissaoEncargos) && IsCents(res.comissaoTotal)
    && IsCents(res.margemContribValor)
    && IsMicros(res.margemBrutaPercent) && IsMicros(res.margemContribPercent)
  }

  /** A ratio to the sale total, in millionths (`_q6(valor / total)`). */
  function Percentual(valor: real, total: real): (r: real)
    requires total > 0.0
    ensures IsMicros(r)
    ensures valor >= 0.0 ==> r >= 0.0
  {
    Q6(valor / total)
  }

  /** The commission's charges, on the gross commission plus its DSR
      (`_q2((bruta + dsr) * taxa)`). */
  function Encargos(bruta: real, dsr: real, taxa: real): (r: real)
    ensures IsCents(r)
  {
    Q2Mul(bruta + dsr, taxa)
  }

  /** Sale taxes and CMV: each tax rounded on its own and the totals their
      exact sums; CMV the signed sum of its rounded parts, which the final
      rounding leaves as it is. */
  predicate VendaECompraDe(form: FormMargem, p: Parametros, dn: DnConfig, total: real,
                           impostosVendaTotal: real, valorDn: real, impostosCompraTotal: real,
                           valorOpcionais: real, freteCompra: real, creditoImpostosFreteCompra: real,
                           custoMaoObra: real, cmvTotal: real)
  {
    && impostosVendaTotal == Q2Mul(total, p.icmsVenda) + Q2Mul(total, p.pisCofinsVenda)
    && valorDn == Q2(dn.valorDn)
    && impostosCompraTotal == Q2Mul(valorDn, p.icmsPisCofinsCompra) + Q2Mul(valorDn, p.pisCofinsCompra)
    && valorOpcionais == Q2(OuReal(form.valorOpcionais, 0.0))
    && freteCompra == Q2(OuReal(form.freteCompra, 0.0))
    && custoMaoObra == Q2(OuReal(form.custoMaoObra, 0.0))
    && creditoImpostosFreteCompra == Q2Mul(freteCompra, p.creditoFreteCompra)
    && cmvTotal == valorDn - impostosCompraTotal + valorOpcionais + freteCompra
                   - creditoImpostosFreteCompra + custoMaoObra
  }

  predicate VendaECompra(res: CalculoMargemResultado, form: FormMargem, p: Parametros, dn: DnConfig) {
    && res.valorVendaTotal == VendaTotal(form)
    && VendaECompraDe(form, p, dn, res.valorVendaTotal, res.impostosVendaTotal, res.valorDn,
                      res.impostosCompraTotal, res.valorOpcionais, res.freteCompra,
                      res.creditoImpostosFreteCompra, res.custoMaoObra, res.cmvTotal)
  }

  /** Gross profit: the PDI/warranty rate falls back to the parameter when
      the form's is missing or zero; the profit is the exact signed sum;
      the gross margin is its ratio to the sale, in millionths. */
  predicate LucroDe(form: FormMargem, p: Parametros, total: real, impostosVendaTotal: real, cmvTotal: real,
                    contratoManutencao: real, valorPdiGarantia: real, lucroBrutoValor: real,
                    margemBrutaPercent: real)
  {
    && contratoManutencao == Q2(OuReal(form.contratoManutencao, 0.0))
    && valorPdiGarantia == Q2Mul(total, OuReal(form.percPdiGarantia, p.pdiGarantia))
    && lucroBrutoValor == total - impostosVendaTotal - cmvTotal - contratoManutencao - valorPdiGarantia
    && total > 0.0
    && margemBrutaPercent == Percentual(lucroBrutoValor, total)
  }

  predicate Lucro(res: CalculoMargemResultado, form: FormMargem, p: Parametros) {
    LucroDe(form, p, res.valorVendaTotal, res.impostosVendaTotal, res.cmvTotal, res.contratoManutencao,
            res.valorPdiGarantia, res.lucroBrutoValor, res.margemBrutaPercent)
  }

  /** Commission: gross on the sale, DSR on the gross, charges on both,
      each rounded; the total their exact sum. */
  predicate ComissaoDe(p: Parametros, total: real, comissaoBruta: real, comissaoDsr: real,
                       comissaoEncargos: real, comissaoTotal: real)
  {
    && comissaoBruta == Q2Mul(total, p.comissaoBruta)
    && comissaoDsr == Q2Mul(comissaoBruta, p.comissaoDsr)
    && comissaoEncargos == Encargos(comissaoBruta, comissaoDsr, p.comissaoEncargos)
    && comissaoTotal == comissaoBruta + comissaoDsr + comissaoEncargos
  }

  predicate Comissao(res: CalculoMargemResultado, p: Parametros) {
    ComissaoDe(p, res.valorVendaTotal, res.comissaoBruta, res.comissaoDsr, res.comissaoEncargos, res.comissaoTotal)
  }

  /** The payment flow: the plan's rows for the down payment at the form's
      percentage, the form's installments, first term and interval (30 when
      missing or zero), at the looked-up monthly rate; every row fits the
      flow table; the financing cost is the exact sum of the rows' costs. */
  predicate Fluxo(res: CalculoMargemResultado, form: FormMargem, p: Parametros, pow: (real, real) -> real) {
    var total := res.valorVendaTotal;
    var n := OuInt(form.qtdParcelas, 0);
    && (n < 0 ==> res.fluxoParcelas == [])
    && (n >= 0 ==> FluxoDoPlano(Ok(res.fluxoParcelas), pow,
                                Plano(total, Q2Mul(total, PercEntrada(form)), n,
                                      OuInt(form.prazoPrimeiraParcelaDias, 0), OuInt(form.intervaloParcelasDias, 30)),
                                total, p.taxaJurosMensal))
    && (forall j :: 0 <= j < |res.fluxoParcelas| ==> FluxoValido(res.fluxoParcelas[j]))
    && res.custoFinanceiroTotal == SomaCustos(res.fluxoParcelas)
  }

  /** Contribution margin: freight, credit, the guarantee letter (whose rate
      falls back to the parameter when missing or zero), courtesy and
      commission, as an exact signed sum on the gross profit, and its ratio
      to the sale in millionths. */
  predicate MargemDe(form: FormMargem, p: Parametros, total: real, lucroBrutoValor: real,
                     custoFinanceiroTotal: real, comissaoTotal: real, freteVenda: real,
                     creditoImpostosFreteVenda: real, valorCartaFianca: real, valorCortesia: real,
                     margemContribValor: real, margemContribPercent: real)
  {
    && freteVenda == Q2(OuReal(form.freteVenda, 0.0))
    && creditoImpostosFreteVenda == Q2Mul(freteVenda, p.creditoFreteVenda)
    && valorCartaFianca == Q2Mul(total, OuReal(form.percCartaFianca, p.cartaFianca))
    && valorCortesia == Q2(OuReal(form.valorCortesia, 0.0))
    && margemContribValor == lucroBrutoValor - freteVenda + creditoImpostosFreteVenda
                             - custoFinanceiroTotal - valorCartaFianca - valorCortesia - comissaoTotal
    && total > 0.0
    && margemContribPercent == Percentual(margemContribValor, total)
  }

  predicate Margem(res: CalculoMargemResultado, form: FormMargem, p: Parametros) {
    MargemDe(form, p, res.valorVendaTotal, res.lucroBrutoValor, res.custoFinanceiroTotal, res.comissaoTotal,
             res.freteVenda, res.creditoImpostosFreteVenda, res.valorCartaFianca, res.valorCortesia,
             res.margemContribValor, res.margemContribPercent)
  }

  /** The checks `calcular` makes before it computes anything, in order. */
  function Verificar(form: FormMargem, hoje: Data, dns: seq<DnRow>): (e: Option<Erro>)
    ensures e.None? <==> form.valido && ObterConfigDn(dns, ConsultaDnDe(form, hoje)).Some?
                         && VendaTotal(form) > 0.0 && 0.0 <= PercEntrada(form) <= 1.0
  {
    if !form.valido then Some(DadosInvalidos)
    else if ObterConfigDn(dns, ConsultaDnDe(form, hoje)).None? then Some(DnNaoEncontrado)
    else if VendaTotal(form) <= 0.0 then Some(VendaNaoPositiva)
    else if PercEntrada(form) < 0.0 || PercEntrada(form) > 1.0 then Some(EntradaInvalida)
    else None
  }

  /** Sale taxes and CMV of a sale whose total is `total`. */
  method CalcularVendaECompra(form: FormMargem, p: Parametros, total: real, dn: DnConfig)
    returns (impostosVendaTotal: real, valorDn: real, impostosCompraTotal: real, valorOpcionais: real,
             freteCompra: real, creditoImpostosFreteCompra: real, custoMaoObra: real, cmvTotal: real)
    ensures VendaECompraDe(form, p, dn, total, impostosVendaTotal, valorDn, impostosCompraTotal, valorOpcionais,
                           freteCompra, creditoImpostosFreteCompra, custoMaoObra, cmvTotal)
    ensures IsCents(impostosVendaTotal) && IsCents(valorDn) && IsCents(impostosCompraTotal) && IsCents(cmvTotal)
    ensures IsCents(valorOpcionais) && IsCents(freteCompra) && IsCents(creditoImpostosFreteCompra)
    ensures IsCents(custoMaoObra)
  {
    var impostosVendaIcms := Q2Mul(total, p.icmsVenda);
    var impostosVendaPisCofins := Q2Mul(total, p.pisCofinsVenda);
    impostosVendaTotal := impostosVendaIcms + impostosVendaPisCofins;
    CentsClosed(impostosVendaIcms, impostosVendaPisCofins);

    valorDn := Q2(dn.valorDn);
    var impostosCompraIcmsPisCofins := Q2Mul(valorDn, p.icmsPisCofinsCompra);
    var impostosCompraPisCofins := Q2Mul(valorDn, p.pisCofinsCompra);
    impostosCompraTotal := impostosCompraIcmsPisCofins + impostosCompraPisCofins;

    valorOpcionais := Q2(OuReal(form.valorOpcionais, 0.0));
    freteCompra := Q2(OuReal(form.freteCompra, 0.0));
    custoMaoObra := Q2(OuReal(form.custoMaoObra, 0.0));
    creditoImpostosFreteCompra := Q2Mul(freteCompra, p.creditoFreteCompra);

    cmvTotal := valorDn - impostosCompraTotal + valorOpcionais + freteCompra
                - creditoImpostosFreteCompra + custoMaoObra;
    CentavosCmv(valorDn, impostosCompraIcmsPisCofins, impostosCompraPisCofins, valorOpcionais, freteCompra,
                creditoImpostosFreteCompra, custoMaoObra);
    cmvTotal := Q2(cmvTotal);
  }

  /** Gross profit and gross margin. */
  method CalcularLucro(form: FormMargem, p: Parametros, total: real, impostosVendaTotal: real, cmvTotal: real)
    returns (contratoManutencao: real, valorPdiGarantia: real, lucroBrutoValor: real, margemBrutaPercent: real)
    requires total > 0.0 && IsCents(total) && IsCents(impostosVendaTotal) && IsCents(cmvTotal)
    ensures LucroDe(form, p, total, impostosVendaTotal, cmvTotal, contratoManutencao, valorPdiGarantia,
                    lucroBrutoValor, margemBrutaPercent)
    ensures IsCents(contratoManutencao) && IsCents(valorPdiGarantia) && IsCents(lucroBrutoValor)
    ensures IsMicros(margemBrutaPercent)
  {
    contratoManutencao := Q2(OuReal(form.contratoManutencao, 0.0));
    valorPdiGarantia := Q2Mul(total, OuReal(form.percPdiGarantia, p.pdiGarantia));

    lucroBrutoValor := total - impostosVendaTotal - cmvTotal - contratoManutencao - valorPdiGarantia;
    CentavosLucro(total, impostosVendaTotal, cmvTotal, contratoManutencao, valorPdiGarantia);
    lucroBrutoValor := Q2(lucroBrutoValor);
    margemBrutaPercent := Percentual(lucroBrutoValor, total);
  }

  /** The salesperson's commission on the sale total. */
  method CalcularComissao(p: Parametros, total: real)
    returns (comissaoBruta: real, comissaoDsr: real, comissaoEncargos: real, comissaoTotal: real)
    ensures ComissaoDe(p, total, comissaoBruta, comissaoDsr, comissaoEncargos, comissaoTotal)
    ensures IsCents(comissaoBruta) && IsCents(comissaoDsr) && IsCents(comissaoEncargos) && IsCents(comissaoTotal)
  {
    comissaoBruta := Q2Mul(total, p.comissaoBruta);
    comissaoDsr := Q2Mul(comissaoBruta, p.comissaoDsr);
    comissaoEncargos := Encargos(comissaoBruta, comissaoDsr, p.comissaoEncargos);
    comissaoTotal := comissaoBruta + comissaoDsr + comissaoEncargos;
    CentsClosed(comissaoBruta, comissaoDsr);
    CentsClosed(comissaoBruta + comissaoDsr, comissaoEncargos);
  }

  /** Freight, guarantee letter, courtesy and the contribution margin. */
  method CalcularMargem(form: FormMargem, p: Parametros, total: real, lucroBrutoValor: real,
                        custoFinanceiroTotal: real, comissaoTotal: real)
    returns (freteVenda: real, creditoImpostosFreteVenda: real, valorCartaFianca: real, valorCortesia: real,
             margemContribValor: real, margemContribPercent: real)
    requires total > 0.0 && IsCents(total)
    requires IsCents(lucroBrutoValor) && IsCents(custoFinanceiroTotal) && IsCents(comissaoTotal)
    ensures MargemDe(form, p, total, lucroBrutoValor, custoFinanceiroTotal, comissaoTotal, freteVenda,
                     creditoImpostosFreteVenda, valorCartaFianca, valorCortesia, margemContribValor,
                     margemContribPercent)
    ensures IsCents(freteVenda) && IsCents(creditoImpostosFreteVenda) && IsCents(valorCartaFianca)
    ensures IsCents(valorCortesia) && IsCents(margemContribValor) && IsMicros(margemContribPercent)
  {
    freteVenda := Q2(OuReal(form.freteVenda, 0.0));
    creditoImpostosFreteVenda := Q2Mul(freteVenda, p.creditoFreteVenda);

    valorCartaFianca := Q2Mul(total, OuReal(form.percCartaFianca, p.cartaFianca));

    valorCortesia := Q2(OuReal(form.valorCortesia, 0.0));

    margemContribValor := lucroBrutoValor - freteVenda + creditoImpostosFreteVenda - custoFinanceiroTotal
                          - valorCartaFianca - valorCortesia - comissaoTotal;
    CentavosMargem(lucroBrutoValor, freteVenda, creditoImpostosFreteVenda, custoFinanceiroTotal,
                   valorCartaFianca, valorCortesia, comissaoTotal);
    margemContribValor := Q2(margemContribValor);
    margemContribPercent := Percentual(margemContribValor, total);
  }

  /** Every part of a successful result, as the predicates above state. */
  predicate Calculado(res: CalculoMargemResultado, form: FormMargem, p: Parametros, dn: DnConfig,
                      pow: (real, real) -> real)
  {
    && EmCentavos(res)
    && VendaECompra(res, form, p, dn) && Lucro(res, form, p) && Comissao(res, p)
    && Fluxo(res, form, p, pow) && Margem(res, form, p)
  }

  /** `calcular`: the margin of one sale.  It fails with the first failed
      check (invalid form, no DN configuration, a sale total that is not
      positive, a down payment outside [0, 1]), or with the flow's division
      by zero; otherwise every part of the result is as `Calculado`
      states, for the looked-up rates and DN. */
  method Calcular(form: FormMargem, hoje: Data, parametros: seq<ParametroRow>, dns: seq<DnRow>,
                  pow: (real, real) -> real)
    returns (r: Result<CalculoMargemResultado>)
    ensures Verificar(form, hoje, dns).Some? ==> r == Err(Verificar(form, hoje, dns).value)
    ensures r.Err? && Verificar(form, hoje, dns).None? ==> r.error == DivisaoPorZero
    ensures r.Ok? ==> Verificar(form, hoje, dns).None?
    ensures r.Ok? ==> Calculado(r.value, form, ResolverParametros(parametros, form, hoje),
                                ObterConfigDn(dns, ConsultaDnDe(form, hoje)).value, pow)
  {
    if !form.valido {
      return Err(DadosInvalidos);
    }
    var dnConfig := ObterConfigDn(dns, ConsultaDnDe(form, hoje));
    if dnConfig.None? {
      return Err(DnNaoEncontrado);
    }

    var valorVendaTotal := VendaTotal(form);
    if valorVendaTotal <= 0.0 {
      return Err(VendaNaoPositiva);
    }

    var p := ResolverParametros(parametros, form, hoje);
    r := CalcularValores(form, p, dnConfig.value, pow, valorVendaTotal);
  }

  /** The rest of `calcular`, once the DN and the rates are known and the
      sale total is positive: the amounts in the order `calcular` computes
      them, with the down-payment check after the gross profit. */
  method CalcularValores(form: FormMargem, p: Parametros, dn: DnConfig, pow: (real, real) -> real,
                         valorVendaTotal: real)
    returns (r: Result<CalculoMargemResultado>)
    requires valorVendaTotal == VendaTotal(form) && valorVendaTotal > 0.0
    ensures PercEntrada(form) < 0.0 || PercEntrada(form) > 1.0 ==> r == Err(EntradaInvalida)
    ensures r.Err? && 0.0 <= PercEntrada(form) <= 1.0 ==> r.error == DivisaoPorZero
    ensures r.Ok? ==> 0.0 <= PercEntrada(form) <= 1.0 && Calculado(r.value, form, p, dn, pow)
  {
    var impostosVendaTotal, valorDn, impostosCompraTotal, valorOpcionais, freteCompra,
        creditoImpostosFreteCompra, custoMaoObra, cmvTotal := CalcularVendaECompra(form, p, valorVendaTotal, dn);
    var contratoManutencao, valorPdiGarantia, lucroBrutoValor, margemBrutaPercent :=
      CalcularLucro(form, p, valorVendaTotal, impostosVendaTotal, cmvTotal);

    if PercEntrada(form) < 0.0 || PercEntrada(form) > 1.0 {
      return Err(EntradaInvalida);
    }
    var inicio := CalculoMargemResultado(
      valorVendaTotal, impostosVendaTotal, valorDn, impostosCompraTotal, cmvTotal,
      valorOpcionais, freteCompra, creditoImpostosFreteCompra, custoMaoObra, contratoManutencao,
      valorPdiGarantia, lucroBrutoValor, margemBrutaPercent,
      0.0, 0.0, 0.0, 0.0, 0.0, 0.0, 0.0, 0.0, 0.0, 0.0, 0.0, []);
    assert EmCentavos(inicio);
    assert VendaECompra(inicio, form, p, dn) && Lucro(inicio, form, p);
    r := CalcularFluxoEMargem(form, p, dn, pow, inicio);
  }

  /** The second half of `calcular`, after the down-payment check: the
      payment flow and its financing cost, the commission and the
      contribution margin, filled into the result whose sale, purchase and
      gross-profit amounts `inicio` already holds. */
  method CalcularFluxoEMargem(form: FormMargem, p: Parametros, dn: DnConfig, pow: (real, real) -> real,
                              inicio: CalculoMargemResultado)
    returns (r: Result<CalculoMargemResultado>)
    requires inicio.valorVendaTotal > 0.0 && 0.0 <= PercEntrada(form) <= 1.0
    requires EmCentavos(inicio) && VendaECompra(inicio, form, p, dn) && Lucro(inicio, form, p)
    ensures r.Err? ==> r.error == DivisaoPorZero
    ensures r.Ok? ==> Calculado(r.value, form, p, dn, pow)
  {
    var valorVendaTotal := inicio.valorVendaTotal;
    var fluxo := CalcularFluxo(form, p, pow, valorVendaTotal);
    if fluxo.Err? {
      return Err(fluxo.error);
    }
    var fluxoParcelas := fluxo.value;
    SomaCustosCentavos(fluxoParcelas);
    var custoFinanceiroTotal := Q2(SomaCustos(fluxoParcelas));

    var comissaoBruta, comissaoDsr, comissaoEncargos, comissaoTotal := CalcularComissao(p, valorVendaTotal);
    var freteVenda, creditoImpostosFreteVenda, valorCartaFianca, valorCortesia, margemContribValor, margemContribPercent :=
      CalcularMargem(form, p, valorVendaTotal, inicio.lucroBrutoValor, custoFinanceiroTotal, comissaoTotal);

    var res := inicio.(
      freteVenda := freteVenda, creditoImpostosFreteVenda := creditoImpostosFreteVenda,
      custoFinanceiroTotal := custoFinanceiroTotal, valorCartaFianca := valorCartaFianca,
      valorCortesia := valorCortesia, comissaoBruta := comissaoBruta, comissaoDsr := comissaoDsr,
      comissaoEncargos := comissaoEncargos, comissaoTotal := comissaoTotal,
      margemContribValor := margemContribValor, margemContribPercent := margemContribPercent,
      fluxoParcelas := fluxoParcelas);
    assert EmCentavos(res);
    assert VendaECompra(res, form, p, dn) && Lucro(res, form, p) && Comissao(res, p);
    assert Fluxo(res, form, p, pow);
    assert Margem(res, form, p);
    r := Ok(res);
  }

  /** The payment flow of a sale whose total is `total`. */
  method CalcularFluxo(form: FormMargem, p: Parametros, pow: (real, real) -> real, total: real)
    returns (r: Result<seq<FluxoParcela>>)
    requires total > 0.0 && IsCents(total) && 0.0 <= PercEntrada(form) <= 1.0
    ensures r.Err? ==> r.error == DivisaoPorZero
    ensures r.Ok? ==> forall j :: 0 <= j < |r.value| ==> FluxoValido(r.value[j])
    ensures r.Ok? ==> var n := OuInt(form.qtdParcelas, 0);
              && (n < 0 ==> r.value == [])
              && (n >= 0 ==> FluxoDoPlano(r, pow,
                                Plano(total, Q2Mul(total, PercEntrada(form)), n,
                                      OuInt(form.prazoPrimeiraParcelaDias, 0), OuInt(form.intervaloParcelasDias, 30)),
                                total, p.taxaJurosMensal))
  {
    var valorEntrada := Q2Mul(total, PercEntrada(form));
    var qtdParcelas := OuInt(form.qtdParcelas, 0);
    var prazoPrimeira := OuInt(form.prazoPrimeiraParcelaDias, 0);
    var intervalo := OuInt(form.intervaloParcelasDias, 30);
    EntradaNaBase(total, PercEntrada(form));
    r := MontarFluxoPagamento(pow, total, valorEntrada, qtdParcelas, prazoPrimeira, intervalo,
                              p.taxaJurosMensal);
    if r.Ok? && qtdParcelas >= 0 {
      FluxoRespeitaTabela(pow, total, valorEntrada, qtdParcelas, prazoPrimeira, intervalo,
                          p.taxaJurosMensal, r);
    }
  }

  /** The CMV's parts are cents, so its final rounding changes nothing. */
  lemma {:induction false} CentavosCmv(dn: real, imp1: real, imp2: real, opc: real, frete: real, credito: real, mao: real)
    requires IsCents(dn) && IsCents(imp1) && IsCents(imp2) && IsCents(opc)
    requires IsCents(frete) && IsCents(credito) && IsCents(mao)
    ensures IsCents(imp1 + imp2)
    ensures var x := dn - (imp1 + imp2) + opc + frete - credito + mao;
            IsCents(x) && Q2(x) == x
  {
    CentsClosed(imp1, imp2);
    CentsClosed(dn, imp1 + imp2);
    CentsClosed(dn - (imp1 + imp2), opc);
    CentsClosed(dn - (imp1 + imp2) + opc, frete);
    CentsClosed(dn - (imp1 + imp2) + opc + frete, credito);
    CentsClosed(dn - (imp1 + imp2) + opc + frete - credito, mao);
    Q2OfCents(dn - (imp1 + imp2) + opc + frete - credito + mao);
  }

  /** The gross profit's parts are cents, so its final rounding changes
      nothing. */
  lemma {:induction false} CentavosLucro(total: real, impostos: real, cmv: real, contrato: real, pdi: real)
    requires IsCents(total) && IsCents(impostos) && IsCents(cmv)
    requires IsCents(contrato) && IsCents(pdi)
    ensures var x := total - impostos - cmv - contrato - pdi;
            IsCents(x) && Q2(x) == x
  {
    CentsClosed(total, impostos);
    CentsClosed(total - impostos, cmv);
    CentsClosed(total - impostos - cmv, contrato);
    CentsClosed(total - impostos - cmv - contrato, pdi);
    Q2OfCents(total - impostos - cmv - contrato - pdi);
  }

  /** The contribution margin's parts are cents, so its final rounding
      changes nothing. */
  lemma {:induction false} CentavosMargem(lucro: real, frete: real, credito: real, custo: real, carta: real, cortesia: real,
                       comissao: real)
    requires IsCents(lucro) && IsCents(frete) && IsCents(credito) && IsCents(custo)
    requires IsCents(carta) && IsCents(cortesia) && IsCents(comissao)
    ensures var x := lucro - frete + credito - custo - carta - cortesia - comissao;
            IsCents(x) && Q2(x) == x
  {
    CentsClosed(lucro, frete);
    CentsClosed(lucro - frete, credito);
    CentsClosed(lucro - frete + credito, custo);
    CentsClosed(lucro - frete + credito - custo, carta);
    CentsClosed(lucro - frete + credito - custo - carta, cortesia);
    CentsClosed(lucro - frete + credito - custo - carta - cortesia, comissao);
    Q2OfCents(lucro - frete + credito - custo - carta - cortesia - comissao);
  }
}
