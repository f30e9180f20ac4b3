/** `app/service/nova_reserva_service.py`: the optional-items row cleaner and
    the screen context of the reservation calculator.  The machine
    repository is a map from machine id to purchase value. */
module NovaReserva {
  import opened PyText
  import opened Rounding
  import opened Formatacao
  import opened CalculosMargem

  /** One kept optional-items row, both fields stripped. */
  datatype Opcional = Opcional(nome: string, horas: string)

  /** `(x or "").strip()`. */
  function Campo(x: Option<string>): string {
    if x.Some? then Strip(x.value) else []
  }

  /** Stripped text never starts or ends with whitespace. */
  predicate Stripped(s: string) {
    s == [] || (!IsSpace(s[0]) && !IsSpace(s[|s| - 1]))
  }

  /** `(x or "").strip()` for every entry of a submitted column. */
  function Campos(xs: seq<Option<string>>): (r: seq<string>)
    ensures |r| == |xs|
    ensures forall i :: 0 <= i < |xs| ==> r[i] == Campo(xs[i])
  {
    seq(|xs|, i requires 0 <= i < |xs| => Campo(xs[i]))
  }

  /** `min(len(nomes), len(horas), limite_linhas)`, and no rows at all for a
      negative limit. */
  function MaxLinhas(nomes: seq<Option<string>>, horas: seq<Option<string>>, limite: int): (n: nat)
    ensures n <= |nomes| && n <= |horas|
    ensures limite < 0 ==> n == 0
    ensures limite >= 0 ==> n <= limite && (n == |nomes| || n == |horas| || n == limite)
  {
    var m := if |nomes| < |horas| then |nomes| else |horas|;
    if limite < 0 then 0 else if limite < m then limite else m
  }

  /** A row is dropped when both of its stripped fields are empty. */
  predicate LinhaVazia(ns: seq<string>, hs: seq<string>, j: nat)
    requires j < |ns| && j < |hs|
  {
    ns[j] == [] && hs[j] == []
  }

  /** The rows kept out of the first `n` stripped rows, in order. */
  function Filtrar(ns: seq<string>, hs: seq<string>, n: nat): (r: seq<Opcional>)
    requires n <= |ns| && n <= |hs|
    ensures |r| <= n
  {
    if n == 0 then []
    else
      var j := n - 1;
      Filtrar(ns, hs, j) + (if LinhaVazia(ns, hs, j) then [] else [Opcional(ns[j], hs[j])])
  }

  /** The non-empty hours of the kept rows, in order. */
  function HorasPreenchidas(itens: seq<Opcional>): (r: seq<string>)
    ensures |r| <= |itens|
  {
    if itens == [] then []
    else
      var it := itens[|itens| - 1];
      HorasPreenchidas(itens[..|itens| - 1]) + (if it.horas == [] then [] else [it.horas])
  }

  lemma {:induction false} HorasPreenchidasSnoc(itens: seq<Opcional>, it: Opcional)
    ensures HorasPreenchidas(itens + [it])
      == HorasPreenchidas(itens) + (if it.horas == [] then [] else [it.horas])
  {
    assert (itens + [it])[..|itens|] == itens;
  }

  lemma {:induction false} LinhasPrefix(ns: seq<string>, hs: seq<string>, m: nat, n: nat)
    requires m <= n <= |ns| && n <= |hs|
    ensures |Filtrar(ns, hs, m)| <= |Filtrar(ns, hs, n)|
    ensures Filtrar(ns, hs, n)[..|Filtrar(ns, hs, m)|] == Filtrar(ns, hs, m)
    decreases n
  {
    if m < n {
      LinhasPrefix(ns, hs, m, n - 1);
      var a := Filtrar(ns, hs, n - 1);
      assert Filtrar(ns, hs, n)[..|a|] == a;
    }
  }

  /** Row `j` is kept iff it is not blank; when kept, it sits at the index
      that counts the kept rows before it. */
  lemma {:induction false} LinhasKeepsRow(ns: seq<string>, hs: seq<string>, n: nat, j: nat)
    requires n <= |ns| && n <= |hs| && j < n
    ensures LinhaVazia(ns, hs, j) <==> |Filtrar(ns, hs, j + 1)| == |Filtrar(ns, hs, j)|
    ensures !LinhaVazia(ns, hs, j) ==>
      |Filtrar(ns, hs, j)| < |Filtrar(ns, hs, n)|
      && Filtrar(ns, hs, n)[|Filtrar(ns, hs, j)|] == Opcional(ns[j], hs[j])
  {
    LinhasPrefix(ns, hs, j + 1, n);
    var a := Filtrar(ns, hs, j);
    var b := Filtrar(ns, hs, j + 1);
    if !LinhaVazia(ns, hs, j) {
      assert b[|a|] == Opcional(ns[j], hs[j]);
      assert Filtrar(ns, hs, n)[|a|] == Filtrar(ns, hs, n)[..|b|][|a|];
    }
  }

  /** Every kept row has a non-empty field, and its fields come from the
      rows examined. */
  lemma {:induction false} LinhasNotBlank(ns: seq<string>, hs: seq<string>, n: nat)
    requires n <= |ns| && n <= |hs|
    ensures forall it :: it in Filtrar(ns, hs, n) ==>
      (it.nome != [] || it.horas != []) && it.nome in ns[..n] && it.horas in hs[..n]
  {
    if n > 0 {
      LinhasNotBlank(ns, hs, n - 1);
      assert ns[..n - 1] <= ns[..n] && hs[..n - 1] <= hs[..n];
    }
  }

  /** The rows the loop of `processar_opcionais` keeps out of the first
      `n`: each field is `(x or "").strip()`, and a row whose two fields are
      both empty is skipped. */
  function LinhasMantidas(nomes: seq<Option<string>>, horas: seq<Option<string>>, n: nat): seq<Opcional>
    requires n <= |nomes| && n <= |horas|
  {
    if n == 0 then []
    else
      var j := n - 1;
      var a := Campo(nomes[j]);
      var b := Campo(horas[j]);
      LinhasMantidas(nomes, horas, j) + (if a == [] && b == [] then [] else [Opcional(a, b)])
  }

  lemma {:induction false} LinhasMantidasStep(nomes: seq<Option<string>>, horas: seq<Option<string>>, j: nat, a: string, b: string)
    requires j < |nomes| && j < |horas| && a == Campo(nomes[j]) && b == Campo(horas[j])
    ensures LinhasMantidas(nomes, horas, j + 1)
      == LinhasMantidas(nomes, horas, j) + (if a == [] && b == [] then [] else [Opcional(a, b)])
  {
  }

  /** The loop's rows are the stripped columns, filtered. */
  lemma {:induction false} LinhasMantidasFiltra(nomes: seq<Option<string>>, horas: seq<Option<string>>, n: nat)
    requires n <= |nomes| && n <= |horas|
    ensures LinhasMantidas(nomes, horas, n) == Filtrar(Campos(nomes), Campos(horas), n)
  {
    if n > 0 {
      LinhasMantidasFiltra(nomes, horas, n - 1);
      var ns := Campos(nomes);
      var hs := Campos(horas);
      LinhasMantidasStep(nomes, horas, n - 1, ns[n - 1], hs[n - 1]);
    }
  }

  /** Every stripped field is stripped. */
  lemma {:induction false} CamposStripped(xs: seq<Option<string>>)
    ensures forall i :: 0 <= i < |xs| ==> Stripped(Campos(xs)[i])
  {
  }

  /** Kept rows are stored stripped. */
  lemma {:induction false} LinhasStripped(nomes: seq<Option<string>>, horas: seq<Option<string>>, n: nat)
    requires n <= |nomes| && n <= |horas|
    ensures forall it :: it in LinhasMantidas(nomes, horas, n) ==>
      Stripped(it.nome) && Stripped(it.horas)
  {
    var ns := Campos(nomes);
    var hs := Campos(horas);
    LinhasMantidasFiltra(nomes, horas, n);
    LinhasNotBlank(ns, hs, n);
    CamposStripped(nomes);
    CamposStripped(horas);
    forall it | it in Filtrar(ns, hs, n) ensures Stripped(it.nome) && Stripped(it.horas) {
      var i :| 0 <= i < n && ns[..n][i] == it.nome;
      var k :| 0 <= k < n && hs[..n][k] == it.horas;
      assert ns[i] == it.nome && hs[k] == it.horas;
    }
  }

  /** `processar_opcionais`: the kept rows, the total of their hours and its
      currency text; both are `None` when no kept row has hours. */
  method ProcessarOpcionais(nomes: seq<Option<string>>, horas: seq<Option<string>>, limite: int)
    returns (itens: seq<Opcional>, totalHoras: Option<real>, totalFormatado: Option<string>)
    ensures itens == LinhasMantidas(nomes, horas, MaxLinhas(nomes, horas, limite))
    ensures totalHoras.None? <==> HorasPreenchidas(itens) == []
    ensures totalHoras.Some? ==>
      totalHoras.value == QEven2(SomaHoras(HorasPreenchidas(itens))) && totalHoras.value >= 0.0
    ensures totalFormatado == FormatarBrl(totalHoras)
  {
    var maxLen := MaxLinhas(nomes, horas, limite);
    itens := [];
    var horasParaSoma: seq<string> := [];
    var idx := 0;
    while idx < maxLen
      invariant 0 <= idx <= maxLen
      invariant itens == LinhasMantidas(nomes, horas, idx)
      invariant horasParaSoma == HorasPreenchidas(itens)
    {
      var nomeRaw := Campo(nomes[idx]);
      var horasRaw := Campo(horas[idx]);
      LinhasMantidasStep(nomes, horas, idx, nomeRaw, horasRaw);
      if nomeRaw == [] && horasRaw == [] {
        idx := idx + 1;
        continue;
      }
      var item := Opcional(nomeRaw, horasRaw);
      HorasPreenchidasSnoc(itens, item);
      itens := itens + [item];
      if horasRaw != [] {
        horasParaSoma := horasParaSoma + [horasRaw];
      }
      idx := idx + 1;
    }
    if horasParaSoma != [] {
      var total := TotalHorasOpcionais(horasParaSoma);
      totalHoras := Some(total);
      totalFormatado := FormatarBrl(totalHoras);
    } else {
      totalHoras := None;
      totalFormatado := None;
    }
  }

  /** The nineteen results of the screen; each has a value key and a
      formatted key. */
  datatype Resultado =
    | ImpostosVendaR | ImpostosCompraR | ValorMaquinaBaseR | CmvR | MaoObraR
    | CreditoImpostosR | CreditoImpostosVendaR | ContratoManutencaoR | EntregaTecnicaR
    | LucroBrutoR | CartaFiancaR | ComissaoBrutaR | DsrR | EncargosComissaoR
    | ComissaoTotalR | ComissaoTotalPercentR | MargemContribuicaoR | PercentualRbR
    | PercentualMargemRbR

  /** A context key: a result's value, or its formatted text. */
  datatype Chave = ValorK(r: Resultado) | FormatadoK(r: Resultado)

  /** The results in the order of `_CALCULO_KEYS`. */
  const Resultados: seq<Resultado> := [
    ImpostosVendaR, ImpostosCompraR, ValorMaquinaBaseR, CmvR, MaoObraR,
    CreditoImpostosR, CreditoImpostosVendaR, ContratoManutencaoR, EntregaTecnicaR,
    LucroBrutoR, CartaFiancaR, ComissaoBrutaR, DsrR, EncargosComissaoR,
    ComissaoTotalR, ComissaoTotalPercentR, MargemContribuicaoR, PercentualRbR,
    PercentualMargemRbR
  ]

  /** Every result is listed. */
  lemma {:induction false} ResultadosCompletos(r: Resultado)
    ensures r in Resultados
  {
    var i := match r
      case ImpostosVendaR => 0
      case ImpostosCompraR => 1
      case ValorMaquinaBaseR => 2
      case CmvR => 3
      case MaoObraR => 4
      case CreditoImpostosR => 5
      case CreditoImpostosVendaR => 6
      case ContratoManutencaoR => 7
      case EntregaTecnicaR => 8
      case LucroBrutoR => 9
      case CartaFiancaR => 10
      case ComissaoBrutaR => 11
      case DsrR => 12
      case EncargosComissaoR => 13
      case ComissaoTotalR => 14
      case ComissaoTotalPercentR => 15
      case MargemContribuicaoR => 16
      case PercentualRbR => 17
      case PercentualMargemRbR => 18;
    assert Resultados[i] == r;
  }

  /** Every key of the context. */
  function Chaves(): (ks: set<Chave>)
    ensures forall k: Chave :: k in ks
  {
    var ks := (set r | r in Resultados :: ValorK(r)) + (set r | r in Resultados :: FormatadoK(r));
    assert forall k: Chave :: k in ks by {
      forall k: Chave ensures k in ks {
        ResultadosCompletos(k.r);
      }
    }
    ks
  }

  /** The value key of each result, as `_CALCULO_KEYS` spells it. */
  function NomeValor(r: Resultado): string {
    match r
    case ImpostosVendaR => "impostos_venda"
    case ImpostosCompraR => "impostos_compra"
    case ValorMaquinaBaseR => "valor_maquina_base"
    case CmvR => "cmv_valor"
    case MaoObraR => "mao_obra_agrega_desagrega_valor"
    case CreditoImpostosR => "credito_impostos_valor"
    case CreditoImpostosVendaR => "credito_impostos_venda_valor"
    case ContratoManutencaoR => "contrato_manutencao_valor"
    case EntregaTecnicaR => "entrega_tecnica_pdi_garantia_valor"
    case LucroBrutoR => "lucro_bruto_valor"
    case CartaFiancaR => "carta_fianca_valor"
    case ComissaoBrutaR => "comissao_bruta_valor"
    case DsrR => "dsr_valor"
    case EncargosComissaoR => "encargos_comissao_valor"
    case ComissaoTotalR => "comissao_total_vendedor_valor"
    case ComissaoTotalPercentR => "comissao_total_vendedor_percent"
    case MargemContribuicaoR => "margem_contribuicao_valor"
    case PercentualRbR => "percentual_rb_valor"
    case PercentualMargemRbR => "percentual_margem_rb_valor"
  }

  /** The key's name in the context dict. */
  function Nome(k: Chave): string {
    match k
    case ValorK(r) => NomeValor(r)
    case FormatadoK(r) => NomeValor(r) + "_formatado"
  }

  /** `_CALCULO_KEYS`, in the order the program lists them. */
  const CalculoKeys: seq<string> := [
    "impostos_venda", "impostos_venda_formatado",
    "impostos_compra", "impostos_compra_formatado",
    "valor_maquina_base", "valor_maquina_base_formatado",
    "cmv_valor", "cmv_valor_formatado",
    "mao_obra_agrega_desagrega_valor", "mao_obra_agrega_desagrega_valor_formatado",
    "credito_impostos_valor", "credito_impostos_valor_formatado",
    "credito_impostos_venda_valor", "credito_impostos_venda_valor_formatado",
    "contrato_manutencao_valor", "contrato_manutencao_valor_formatado",
    "entrega_tecnica_pdi_garantia_valor", "entrega_tecnica_pdi_garantia_valor_formatado",
    "lucro_bruto_valor", "lucro_bruto_valor_formatado",
    "carta_fianca_valor", "carta_fianca_valor_formatado",
    "comissao_bruta_valor", "comissao_bruta_valor_formatado",
    "dsr_valor", "dsr_valor_formatado",
    "encargos_comissao_valor", "encargos_comissao_valor_formatado",
    "comissao_total_vendedor_valor", "comissao_total_vendedor_valor_formatado",
    "comissao_total_vendedor_percent", "comissao_total_vendedor_percent_formatado",
    "margem_contribuicao_valor", "margem_contribuicao_valor_formatado",
    "percentual_rb_valor", "percentual_rb_valor_formatado",
    "percentual_margem_rb_valor", "percentual_margem_rb_valor_formatado"
  ]

  /** A context entry: `None`, a decimal or a formatted text. */
  datatype Valor = Nada | Numero(n: real) | Texto(t: string)

  /** A decimal-or-`None` as a context entry. */
  function ValorDe(o: Option<real>): (v: Valor)
    ensures v == Nada <==> o.None?
  {
    if o.Some? then Numero(o.value) else Nada
  }

  /** `formatar_brl(x)` as a context entry. */
  function Formatado(o: Option<real>): (v: Valor)
    ensures v == Nada <==> o.None?
  {
    if o.Some? then Texto(FormatarBrl(o).value) else Nada
  }

  /** The context: every key present, and a formatted entry present exactly
      when its value is. */
  ghost predicate ContextoValido(ctx: map<Chave, Valor>) {
    (forall k: Chave :: k in ctx)
    && (forall r: Resultado :: ctx[ValorK(r)] == Nada <==> ctx[FormatadoK(r)] == Nada)
  }

  /** `_contexto_vazio()` and `contexto_inicial()`: every key, all `None`. */
  function ContextoVazio(): (ctx: map<Chave, Valor>)
    ensures ContextoValido(ctx)
    ensures forall k :: ctx[k] == Nada
  {
    map k | k in Chaves() :: Nada
  }

  /** The nineteen results of one calculation, each `None` when it was not
      computed. */
  datatype Valores = Valores(
    impostosVenda: Option<real>, impostosCompra: Option<real>, valorMaquinaBase: Option<real>,
    cmv: Option<real>, maoObra: Option<real>, credito: Option<real>, creditoVenda: Option<real>,
    contrato: Option<real>, entregaTecnica: Option<real>, lucroBruto: Option<real>,
    cartaFianca: Option<real>, comissaoBruta: Option<real>, dsr: Option<real>,
    encargos: Option<real>, comissaoTotal: Option<real>, comissaoTotalPercent: Option<real>,
    margem: Option<real>, percentualRb: Option<real>, percentualMargemRb: Option<real>)

  /** The result stored under `r`. */
  function Get(v: Valores, r: Resultado): Option<real> {
    match r
    case ImpostosVendaR => v.impostosVenda
    case ImpostosCompraR => v.impostosCompra
    case ValorMaquinaBaseR => v.valorMaquinaBase
    case CmvR => v.cmv
    case MaoObraR => v.maoObra
    case CreditoImpostosR => v.credito
    case CreditoImpostosVendaR => v.creditoVenda
    case ContratoManutencaoR => v.contrato
    case EntregaTecnicaR => v.entregaTecnica
    case LucroBrutoR => v.lucroBruto
    case CartaFiancaR => v.cartaFianca
    case ComissaoBrutaR => v.comissaoBruta
    case DsrR => v.dsr
    case EncargosComissaoR => v.encargos
    case ComissaoTotalR => v.comissaoTotal
    case ComissaoTotalPercentR => v.comissaoTotalPercent
    case MargemContribuicaoR => v.margem
    case PercentualRbR => v.percentualRb
    case PercentualMargemRbR => v.percentualMargemRb
  }

  /** `ctx[k] = x; ctx[k + "_formatado"] = formatar_brl(x)`. */
  function Put(ctx: map<Chave, Valor>, r: Resultado, x: Option<real>): map<Chave, Valor> {
    ctx[ValorK(r) := ValorDe(x)][FormatadoK(r) := Formatado(x)]
  }

  /** `_contexto_vazio()` after the results `rs` were stored in turn.  A
      result that was never computed is `None`, and storing it leaves the
      context as it was, so storing every result gives the dict that
      `calcular_contexto` returns. */
  function ContextoDe(v: Valores, rs: seq<Resultado>): (ctx: map<Chave, Valor>)
    ensures forall r :: ValorK(r) in ctx && FormatadoK(r) in ctx
    ensures forall r :: ctx[ValorK(r)] == (if r in rs then ValorDe(Get(v, r)) else Nada)
    decreases |rs|
  {
    if rs == [] then ContextoVazio()
    else Put(ContextoDe(v, rs[..|rs| - 1]), rs[|rs| - 1], Get(v, rs[|rs| - 1]))
  }

  /** The formatted entries of that context: each is `formatar_brl` of its
      value. */
  lemma {:induction false} ContextoDeFormatado(v: Valores, rs: seq<Resultado>)
    ensures forall r :: ContextoDe(v, rs)[FormatadoK(r)] == (if r in rs then Formatado(Get(v, r)) else Nada)
    decreases |rs|
  {
    if rs != [] {
      ContextoDeFormatado(v, rs[..|rs| - 1]);
      assert forall r :: r in rs <==> r in rs[..|rs| - 1] || r == rs[|rs| - 1] by {
        assert rs == rs[..|rs| - 1] + [rs[|rs| - 1]];
      }
    }
  }

  /** A context whose entries are the results' values and their
      `formatar_brl` texts is well formed. */
  lemma {:induction false} ValidoDeEntradas(v: Valores, rs: seq<Resultado>, ctx: map<Chave, Valor>)
    requires forall r :: ValorK(r) in ctx && FormatadoK(r) in ctx
    requires forall r :: ctx[ValorK(r)] == (if r in rs then ValorDe(Get(v, r)) else Nada)
    requires forall r :: ctx[FormatadoK(r)] == (if r in rs then Formatado(Get(v, r)) else Nada)
    ensures ContextoValido(ctx)
  {
    forall k: Chave ensures k in ctx {
      match k
      case ValorK(r) =>
      case FormatadoK(r) =>
    }
  }

  /** The context with every result stored. */
  function Contexto(v: Valores): (ctx: map<Chave, Valor>)
    ensures forall r :: ValorK(r) in ctx && ctx[ValorK(r)] == ValorDe(Get(v, r))
  {
    forall r ensures r in Resultados { ResultadosCompletos(r); }
    ContextoDe(v, Resultados)
  }

  /** Each formatted entry is `formatar_brl` of its value, so the context
      built from any results is well formed. */
  lemma {:induction false} ContextoFormatado(v: Valores)
    ensures forall r :: FormatadoK(r) in Contexto(v) && Contexto(v)[FormatadoK(r)] == Formatado(Get(v, r))
    ensures ContextoValido(Contexto(v))
  {
    ContextoDeFormatado(v, Resultados);
    ValidoDeEntradas(v, Resultados, Contexto(v));
    forall r ensures r in Resultados { ResultadosCompletos(r); }
  }

  /** The form fields the calculation reads, as decimals or `None`. */
  datatype Formulario = Formulario(
    valorVenda: Option<real>,
    icmsPercent: Option<real>,
    pisCofinsPercent: Option<real>,
    cartaFiancaPercent: Option<real>,
    contratoManutencao: Option<real>,
    entregaTecnicaPercent: Option<real>,
    maquinaId: Option<int>,
    icmsPisCompraPercent: Option<real>,
    pisCofinsCompraPercent: Option<real>,
    maoObraHoras: Option<real>,
    freteCompra: Option<real>,
    creditoImpostosPercent: Option<real>,
    freteVenda: Option<real>,
    creditoImpostosVendaPercent: Option<real>,
    comissaoBrutaPercent: Option<real>,
    dsrPercent: Option<real>,
    encargosComissaoPercent: Option<real>,
    custoFinanceiro: Option<real>,
    cortesia: Option<real>)

  /** The machine's purchase value: found only for a truthy id the
      repository knows. */
  function ValorMaquinaBase(form: Formulario, maquinas: map<int, real>): (r: Option<real>)
    ensures r.Some? <==> form.maquinaId.Some? && form.maquinaId.value != 0 && form.maquinaId.value in maquinas
  {
    if form.maquinaId.Some? && form.maquinaId.value != 0 && form.maquinaId.value in maquinas
    then Some(maquinas[form.maquinaId.value])
    else None
  }

  /** The sale side of `calcular_contexto`: the sales taxes, always; the
      carta-fiança and the PDI as percentages of the sale when both are
      given; the maintenance contract as typed. */
  method CalcularVenda(form: Formulario)
    returns (impostosVenda: real, cartaFianca: Option<real>, contrato: Option<real>, entregaTecnica: Option<real>)
    ensures impostosVenda == ImpostosVenda(form.valorVenda, form.icmsPercent, form.pisCofinsPercent)
    ensures cartaFianca.Some? <==> form.valorVenda.Some? && form.cartaFiancaPercent.Some?
    ensures cartaFianca.Some? ==> cartaFianca == PercentualDe(form.valorVenda, form.cartaFiancaPercent)
    ensures contrato == form.contratoManutencao
    ensures entregaTecnica.Some? <==> form.valorVenda.Some? && form.entregaTecnicaPercent.Some?
    ensures entregaTecnica.Some? ==> entregaTecnica == PercentualDe(form.valorVenda, form.entregaTecnicaPercent)
  {
    var venda := form.valorVenda;
    impostosVenda := ImpostosVenda(venda, form.icmsPercent, form.pisCofinsPercent);

    cartaFianca := None;
    if venda.Some? && form.cartaFiancaPercent.Some? {
      cartaFianca := PercentualDe(venda, form.cartaFiancaPercent);
    }

    contrato := None;
    if form.contratoManutencao.Some? {
      contrato := form.contratoManutencao;
    }

    entregaTecnica := None;
    if venda.Some? && form.entregaTecnicaPercent.Some? {
      entregaTecnica := PercentualDe(venda, form.entregaTecnicaPercent);
    }
  }

  /** The machine's purchase side of `calcular_contexto`: machine value,
      purchase taxes, labour, freight credits and the cost of goods sold. */
  method CalcularCompra(form: Formulario, totalHorasOpcionais: Option<real>, maquinas: map<int, real>)
    returns (valorMaquinaBase: Option<real>, impostosCompra: Option<real>, maoObra: Option<real>,
             credito: Option<real>, creditoVenda: Option<real>, cmv: Option<real>)
    ensures valorMaquinaBase == ValorMaquinaBase(form, maquinas)
    ensures impostosCompra == ImpostosCompra(valorMaquinaBase, form.icmsPisCompraPercent, form.pisCofinsCompraPercent)
    ensures maoObra.Some? <==> form.maoObraHoras.Some?
    ensures maoObra.Some? ==> maoObra.value == MaoObraAgregaDesagrega(form.maoObraHoras)
    ensures credito.Some? <==> form.freteCompra.Some? && form.creditoImpostosPercent.Some?
    ensures credito.Some? ==> credito == PercentualDe(form.freteCompra, form.creditoImpostosPercent)
    ensures creditoVenda.Some? <==> form.freteVenda.Some? && form.creditoImpostosVendaPercent.Some?
    ensures creditoVenda.Some? ==> creditoVenda == PercentualDe(form.freteVenda, form.creditoImpostosVendaPercent)
    ensures cmv.Some? <==> valorMaquinaBase.Some?
    ensures cmv.Some? ==> cmv.value == QEven2(CmvFormula(valorMaquinaBase.value, impostosCompra,
                                              totalHorasOpcionais, form.freteCompra, credito, maoObra))
  {
    valorMaquinaBase := None;
    if form.maquinaId.Some? && form.maquinaId.value != 0 {
      if form.maquinaId.value in maquinas {
        valorMaquinaBase := Some(maquinas[form.maquinaId.value]);
      }
    }

    impostosCompra := ImpostosCompra(valorMaquinaBase, form.icmsPisCompraPercent, form.pisCofinsCompraPercent);

    maoObra := None;
    if form.maoObraHoras.Some? {
      maoObra := Some(MaoObraAgregaDesagrega(form.maoObraHoras));
    }

    credito := None;
    if form.freteCompra.Some? && form.creditoImpostosPercent.Some? {
      credito := PercentualDe(form.freteCompra, form.creditoImpostosPercent);
    }

    creditoVenda := None;
    if form.freteVenda.Some? && form.creditoImpostosVendaPercent.Some? {
      creditoVenda := PercentualDe(form.freteVenda, form.creditoImpostosVendaPercent);
    }

    cmv := None;
    if valorMaquinaBase.Some? {
      cmv := Cmv(valorMaquinaBase, impostosCompra, totalHorasOpcionais, form.freteCompra, credito, maoObra);
    }
  }

  /** The salesperson's commission part of `calcular_contexto`. */
  method CalcularComissao(venda: Option<real>, form: Formulario)
    returns (comissaoBruta: Option<real>, dsr: Option<real>, encargos: Option<real>,
             comissaoTotal: Option<real>, percent: Option<real>)
    ensures comissaoBruta.Some? <==> venda.Some? && form.comissaoBrutaPercent.Some?
    ensures comissaoBruta.Some? ==> comissaoBruta == PercentualDe(venda, form.comissaoBrutaPercent)
    ensures dsr.Some? <==> comissaoBruta.Some? && form.dsrPercent.Some?
    ensures dsr.Some? ==> dsr == PercentualDe(comissaoBruta, form.dsrPercent)
    ensures encargos.Some? <==> dsr.Some? && form.encargosComissaoPercent.Some?
    ensures encargos.Some? ==> encargos == EncargosComissao(comissaoBruta, dsr, form.encargosComissaoPercent)
    ensures comissaoTotal.Some? <==> encargos.Some?
    ensures comissaoTotal.Some? ==> comissaoTotal == TotalComissaoVendedor(comissaoBruta, dsr, encargos)
    ensures comissaoTotal.Some? ==>
      NearestCents(comissaoTotal.value, comissaoBruta.value + dsr.value + encargos.value)
    ensures percent.Some? <==> encargos.Some? && venda.value != 0.0
    ensures percent.Some? ==> percent == PercentualSobreVenda(comissaoTotal, venda)
  {
    comissaoBruta := None;
    if venda.Some? && form.comissaoBrutaPercent.Some? {
      comissaoBruta := PercentualDe(venda, form.comissaoBrutaPercent);
    }

    dsr := None;
    if comissaoBruta.Some? && form.dsrPercent.Some? {
      dsr := PercentualDe(comissaoBruta, form.dsrPercent);
    }

    encargos := None;
    if comissaoBruta.Some? && dsr.Some? && form.encargosComissaoPercent.Some? {
      encargos := EncargosComissao(comissaoBruta, dsr, form.encargosComissaoPercent);
    }

    comissaoTotal := None;
    percent := None;
    if comissaoBruta.Some? && dsr.Some? && encargos.Some? && venda.Some? {
      comissaoTotal := TotalComissaoVendedor(comissaoBruta, dsr, encargos);
      percent := PercentualSobreVenda(comissaoTotal, venda);
    }
  }

  /** What the results of `calcular_contexto` satisfy: the sales taxes are
      always there, every other result is present exactly when the inputs
      it needs are (a percentage of the sale also needs a non-zero sale),
      and each present result is its formula applied to the form and to
      the results before it. */
  predicate Calculado(form: Formulario, horas: Option<real>, maquinas: map<int, real>, v: Valores) {
    v.impostosVenda == Some(ImpostosVenda(form.valorVenda, form.icmsPercent, form.pisCofinsPercent))
    && Presentes(form, maquinas, v)
    && Valorado(form, horas, v)
  }

  /** The value of each present result, given `horas` as the optionals'
      hour total. */
  predicate Valorado(form: Formulario, horas: Option<real>, v: Valores) {
    var venda := form.valorVenda;
    && (v.cartaFianca.Some? <==> venda.Some? && form.cartaFiancaPercent.Some?)
    && (v.cartaFianca.Some? ==> v.cartaFianca == PercentualDe(venda, form.cartaFiancaPercent))
    && (v.entregaTecnica.Some? <==> venda.Some? && form.entregaTecnicaPercent.Some?)
    && (v.entregaTecnica.Some? ==> v.entregaTecnica == PercentualDe(venda, form.entregaTecnicaPercent))
    && v.impostosCompra == ImpostosCompra(v.valorMaquinaBase, form.icmsPisCompraPercent, form.pisCofinsCompraPercent)
    && (v.maoObra.Some? <==> form.maoObraHoras.Some?)
    && (v.maoObra.Some? ==> v.maoObra.value == MaoObraAgregaDesagrega(form.maoObraHoras))
    && (v.credito.Some? <==> form.freteCompra.Some? && form.creditoImpostosPercent.Some?)
    && (v.credito.Some? ==> v.credito == PercentualDe(form.freteCompra, form.creditoImpostosPercent))
    && (v.creditoVenda.Some? <==> form.freteVenda.Some? && form.creditoImpostosVendaPercent.Some?)
    && (v.creditoVenda.Some? ==> v.creditoVenda == PercentualDe(form.freteVenda, form.creditoImpostosVendaPercent))
    && (v.cmv.Some? ==>
          (v.valorMaquinaBase.Some? && v.cmv.value ==
             QEven2(CmvFormula(v.valorMaquinaBase.value, v.impostosCompra, horas, form.freteCompra, v.credito, v.maoObra))))
    && (v.lucroBruto.Some? ==>
          (venda.Some? && v.lucroBruto.value ==
             QEven2(LucroBrutoFormula(venda.value, v.impostosVenda, v.cmv, v.contrato, v.entregaTecnica))))
    && (v.comissaoBruta.Some? ==> v.comissaoBruta == PercentualDe(venda, form.comissaoBrutaPercent))
    && (v.dsr.Some? ==> v.dsr == PercentualDe(v.comissaoBruta, form.dsrPercent))
    && (v.encargos.Some? ==> v.encargos == EncargosComissao(v.comissaoBruta, v.dsr, form.encargosComissaoPercent))
    && (v.comissaoTotal.Some? ==> v.comissaoTotal == TotalComissaoVendedor(v.comissaoBruta, v.dsr, v.encargos))
    && (v.comissaoTotalPercent.Some? ==> v.comissaoTotalPercent == PercentualSobreVenda(v.comissaoTotal, venda))
    && (v.margem.Some? ==>
          (v.lucroBruto.Some? && v.margem.value ==
             QEven2(MargemFormula(v.lucroBruto.value, form.freteVenda, v.creditoVenda, form.custoFinanceiro,
                                  v.cartaFianca, form.cortesia, v.comissaoTotal))))
    && (v.percentualRb.Some? ==> v.percentualRb == PercentualSobreVenda(v.margem, venda))
    && (v.percentualMargemRb.Some? ==> v.percentualMargemRb == PercentualSobreVenda(v.lucroBruto, venda))
  }

  /** Which results are present, read off the form. */
  predicate Presentes(form: Formulario, maquinas: map<int, real>, v: Valores) {
    && v.valorMaquinaBase == ValorMaquinaBase(form, maquinas)
    && v.contrato == form.contratoManutencao
    && (v.cmv.Some? <==> v.valorMaquinaBase.Some?)
    && (v.lucroBruto.Some? <==> form.valorVenda.Some? && v.cmv.Some?)
    && (v.comissaoBruta.Some? <==> form.valorVenda.Some? && form.comissaoBrutaPercent.Some?)
    && (v.dsr.Some? <==> v.comissaoBruta.Some? && form.dsrPercent.Some?)
    && (v.encargos.Some? <==> v.dsr.Some? && form.encargosComissaoPercent.Some?)
    && (v.comissaoTotal.Some? <==> v.encargos.Some?)
    && (v.comissaoTotalPercent.Some? <==> v.encargos.Some? && form.valorVenda.value != 0.0)
    && (v.margem.Some? <==> v.lucroBruto.Some?)
    && (v.percentualRb.Some? <==> v.lucroBruto.Some? && form.valorVenda.value != 0.0)
    && (v.percentualMargemRb.Some? <==> v.percentualRb.Some?)
  }

  /** The same guarantees read off the context dict the template receives,
      for the machine, the gross profit and the margin: `None` under a key
      exactly when that result was not computed. */
  predicate ContextoMargem(form: Formulario, maquinas: map<int, real>, ctx: map<Chave, Valor>)
    requires forall r :: ValorK(r) in ctx
  {
    && ctx[ValorK(ValorMaquinaBaseR)] == ValorDe(ValorMaquinaBase(form, maquinas))
    && ctx[ValorK(ContratoManutencaoR)] == ValorDe(form.contratoManutencao)
    && (ctx[ValorK(CmvR)] != Nada <==> ValorMaquinaBase(form, maquinas).Some?)
    && (ctx[ValorK(LucroBrutoR)] != Nada <==> form.valorVenda.Some? && ValorMaquinaBase(form, maquinas).Some?)
    && (ctx[ValorK(MargemContribuicaoR)] != Nada <==> ctx[ValorK(LucroBrutoR)] != Nada)
    && (ctx[ValorK(PercentualRbR)] != Nada <==>
          ctx[ValorK(LucroBrutoR)] != Nada && form.valorVenda.value != 0.0)
    && (ctx[ValorK(PercentualMargemRbR)] != Nada <==> ctx[ValorK(PercentualRbR)] != Nada)
  }

  /** The same for the salesperson's commission. */
  predicate ContextoComissao(form: Formulario, ctx: map<Chave, Valor>)
    requires forall r :: ValorK(r) in ctx
  {
    && (ctx[ValorK(ComissaoBrutaR)] != Nada <==> form.valorVenda.Some? && form.comissaoBrutaPercent.Some?)
    && (ctx[ValorK(DsrR)] != Nada <==>
          form.valorVenda.Some? && form.comissaoBrutaPercent.Some? && form.dsrPercent.Some?)
    && (ctx[ValorK(EncargosComissaoR)] != Nada <==>
          form.valorVenda.Some? && form.comissaoBrutaPercent.Some? && form.dsrPercent.Some?
          && form.encargosComissaoPercent.Some?)
    && (ctx[ValorK(ComissaoTotalR)] != Nada <==> ctx[ValorK(EncargosComissaoR)] != Nada)
    && (ctx[ValorK(ComissaoTotalPercentR)] != Nada <==>
          ctx[ValorK(EncargosComissaoR)] != Nada && form.valorVenda.value != 0.0)
  }

  /** Results present as the form says, stored in a context, give a
      context with the same machine and margin entries present. */
  lemma {:induction false} ContextoDeMargem(form: Formulario, maquinas: map<int, real>, v: Valores, ctx: map<Chave, Valor>)
    requires Presentes(form, maquinas, v)
    requires forall r :: ValorK(r) in ctx && ctx[ValorK(r)] == ValorDe(Get(v, r))
    ensures ContextoMargem(form, maquinas, ctx)
  {
    var l := ctx[ValorK(LucroBrutoR)];
    assert ctx[ValorK(CmvR)] != Nada <==> ValorMaquinaBase(form, maquinas).Some?;
    assert l != Nada <==> form.valorVenda.Some? && ValorMaquinaBase(form, maquinas).Some?;
    assert ctx[ValorK(MargemContribuicaoR)] != Nada <==> l != Nada;
  }

  /** The same for the commission entries. */
  lemma {:induction false} ContextoDeComissao(form: Formulario, maquinas: map<int, real>, v: Valores, ctx: map<Chave, Valor>)
    requires Presentes(form, maquinas, v)
    requires forall r :: ValorK(r) in ctx && ctx[ValorK(r)] == ValorDe(Get(v, r))
    ensures ContextoComissao(form, ctx)
  {
    var e := ctx[ValorK(EncargosComissaoR)];
    assert ctx[ValorK(ComissaoBrutaR)] != Nada <==> form.valorVenda.Some? && form.comissaoBrutaPercent.Some?;
    assert ctx[ValorK(DsrR)] != Nada <==>
      form.valorVenda.Some? && form.comissaoBrutaPercent.Some? && form.dsrPercent.Some?;
    assert e != Nada <==>
      form.valorVenda.Some? && form.comissaoBrutaPercent.Some? && form.dsrPercent.Some?
      && form.encargosComissaoPercent.Some?;
    assert ctx[ValorK(ComissaoTotalR)] != Nada <==> e != Nada;
  }

  /** The margin part of `calcular_contexto`: the contribution margin and
      both percentages of the sale, computed only when there is a gross
      profit and a sale. */
  method CalcularMargem(form: Formulario, lucroBruto: Option<real>, creditoVenda: Option<real>,
                        cartaFianca: Option<real>, comissaoTotal: Option<real>)
    returns (margem: Option<real>, percentualRb: Option<real>, percentualMargemRb: Option<real>)
    ensures margem.Some? <==> lucroBruto.Some? && form.valorVenda.Some?
    ensures margem.Some? ==>
      margem.value == QEven2(MargemFormula(lucroBruto.value, form.freteVenda, creditoVenda, form.custoFinanceiro,
                                           cartaFianca, form.cortesia, comissaoTotal))
    ensures percentualRb.Some? <==> margem.Some? && form.valorVenda.value != 0.0
    ensures percentualRb.Some? ==> percentualRb == PercentualSobreVenda(margem, form.valorVenda)
    ensures percentualMargemRb.Some? <==> percentualRb.Some?
    ensures percentualMargemRb.Some? ==> percentualMargemRb == PercentualSobreVenda(lucroBruto, form.valorVenda)
  {
    var venda := form.valorVenda;
    margem := None;
    percentualRb := None;
    percentualMargemRb := None;
    if lucroBruto.Some? && venda.Some? {
      margem := MargemContribuicao(lucroBruto, form.freteVenda, creditoVenda, form.custoFinanceiro,
                                   cartaFianca, form.cortesia, comissaoTotal);
      percentualRb := PercentualSobreVenda(margem, venda);
      percentualMargemRb := PercentualSobreVenda(lucroBruto, venda);
    }
  }

  /** The body of `calcular_contexto`, in the order the program computes them: each result
      is computed only when the inputs it needs are present. */
  method CalcularValores(form: Formulario, totalHorasOpcionais: Option<real>, maquinas: map<int, real>)
    returns (v: Valores)
    ensures Calculado(form, totalHorasOpcionais, maquinas, v)
  {
    var venda := form.valorVenda;
    var impostosVenda, cartaFianca, contrato, entregaTecnica := CalcularVenda(form);

    var valorMaquinaBase, impostosCompra, maoObra, credito, creditoVenda, cmv :=
      CalcularCompra(form, totalHorasOpcionais, maquinas);

    var lucroBruto: Option<real> := None;
    if venda.Some? && cmv.Some? {
      lucroBruto := LucroBruto(venda, Some(impostosVenda), cmv, contrato, entregaTecnica);
    }

    var comissaoBruta, dsr, encargos, comissaoTotal, percent := CalcularComissao(venda, form);

    var margem, percentualRb, percentualMargemRb :=
      CalcularMargem(form, lucroBruto, creditoVenda, cartaFianca, comissaoTotal);

    v := Valores(
      Some(impostosVenda), impostosCompra, valorMaquinaBase, cmv, maoObra, credito, creditoVenda,
      contrato, entregaTecnica, lucroBruto, cartaFianca, comissaoBruta, dsr, encargos,
      comissaoTotal, percent, margem, percentualRb, percentualMargemRb);
    assert Presentes(form, maquinas, v);
    assert Valorado(form, totalHorasOpcionais, v);
  }

  /** `calcular_contexto`: every result the screen shows, each computed only
      when the inputs it needs are present. */
  method CalcularContexto(form: Formulario, totalHorasOpcionais: Option<real>, maquinas: map<int, real>)
    returns (ctx: map<Chave, Valor>)
    ensures ContextoValido(ctx)
    ensures ctx[ValorK(ImpostosVendaR)] == Numero(ImpostosVenda(form.valorVenda, form.icmsPercent, form.pisCofinsPercent))
    ensures ContextoMargem(form, maquinas, ctx)
    ensures ContextoComissao(form, ctx)
    ensures exists v :: Calculado(form, totalHorasOpcionais, maquinas, v) && ctx == Contexto(v)
  {
    var v := CalcularValores(form, totalHorasOpcionais, maquinas);
    ctx := Contexto(v);
    assert Calculado(form, totalHorasOpcionais, maquinas, v) && ctx == Contexto(v);
    ContextoDeMargem(form, maquinas, v, ctx);
    ContextoDeComissao(form, maquinas, v, ctx);
    ContextoFormatado(v);
  }
}
