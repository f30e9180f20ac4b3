/** `app/repositories/margem_repository.py`: the two lookups the margin
    engine makes.  Each is an SQL query of the form "filter, order, take the
    first row"; here it is a filter plus an arg-max over a sequence of rows.
    Where the SQL order leaves ties open the model takes the earliest row. */
module MargemRepository {
  import opened PyText
  import opened ConfigDn

  // ---------------------------------------------------------------------
  // obter_parametro_decimal over tb_cm_margem_parametro_geral

  /** A row of `tb_cm_margem_parametro_geral` (the columns the query uses). */
  datatype ParametroRow = ParametroRow(
    codigo: string,
    valorDecimal: Option<real>,
    idFilial: Option<int>,
    idTipoVenda: Option<int>,
    idModalidadeFin: Option<int>,
    dataInicio: Data,
    dataFim: Option<Data>,
    ativo: bool)

  /** The arguments of `obter_parametro_decimal`. */
  datatype ConsultaParametro = ConsultaParametro(
    codigo: string,
    dataRef: Data,
    idFilial: Option<int>,
    idTipoVenda: Option<int>,
    idModalidadeFin: Option<int>)

  /** Same code, active, and in force on the reference date. */
  predicate Vigente(p: ParametroRow, q: ConsultaParametro) {
    && p.codigo == q.codigo
    && p.ativo
    && NaoDepois(p.dataInicio, q.dataRef)
    && (p.dataFim.None? || NaoDepois(q.dataRef, p.dataFim.value))
  }

  /** A requested dimension filters only when it is given; then the row's
      column must be NULL (a generic row) or equal to it. */
  predicate DimensaoAceita(coluna: Option<int>, pedido: Option<int>) {
    pedido.None? || coluna.None? || coluna == pedido
  }

  /** The rows the WHERE clause keeps. */
  predicate Elegivel(p: ParametroRow, q: ConsultaParametro) {
    && Vigente(p, q)
    && DimensaoAceita(p.idFilial, q.idFilial)
    && DimensaoAceita(p.idTipoVenda, q.idTipoVenda)
    && DimensaoAceita(p.idModalidadeFin, q.idModalidadeFin)
  }

  function Presente(x: Option<int>): (n: int)
    ensures n == (if x.None? then 0 else 1)
  {
    if x.None? then 0 else 1
  }

  /** Specificity: the number of non-NULL dimension columns. */
  function Score(p: ParametroRow): (s: int)
    ensures 0 <= s <= 3
    ensures s == 3 <==> p.idFilial.Some? && p.idTipoVenda.Some? && p.idModalidadeFin.Some?
    ensures s == 0 <==> p.idFilial.None? && p.idTipoVenda.None? && p.idModalidadeFin.None?
  {
    Presente(p.idFilial) + Presente(p.idTipoVenda) + Presente(p.idModalidadeFin)
  }

  /** `a` comes strictly before `b` in `ORDER BY score DESC, data_inicio DESC`. */
  predicate Supera(a: ParametroRow, b: ParametroRow) {
    Score(a) > Score(b) || (Score(a) == Score(b) && !NaoDepois(a.dataInicio, b.dataInicio))
  }

  /** The order is a strict weak order: asymmetric, and a row above `b`
      is above every row not above `b`. */
  lemma {:induction false} SuperaEncadeia(a: ParametroRow, b: ParametroRow, c: ParametroRow)
    ensures Supera(a, b) ==> !Supera(b, a)
    ensures Supera(a, b) && !Supera(c, b) ==> Supera(a, c)
  {
    NaoDepoisTotal(a.dataInicio, b.dataInicio);
    NaoDepoisTotal(b.dataInicio, c.dataInicio);
    NaoDepoisTotal(a.dataInicio, c.dataInicio);
  }

  /** Row `i` is the row the query returns: eligible, with no eligible
      row before it in the ORDER BY, and the earliest such row. */
  predicate Primeiro(rows: seq<ParametroRow>, q: ConsultaParametro, i: int) {
    && 0 <= i < |rows|
    && Elegivel(rows[i], q)
    && (forall j :: 0 <= j < |rows| && Elegivel(rows[j], q) ==> !Supera(rows[j], rows[i]))
    && (forall j :: 0 <= j < i && Elegivel(rows[j], q) ==> Supera(rows[i], rows[j]))
  }

  /** At most one row is the first: the query's answer is determined. */
  lemma {:induction false} PrimeiroUnico(rows: seq<ParametroRow>, q: ConsultaParametro, i: int, k: int)
    requires Primeiro(rows, q, i) && Primeiro(rows, q, k)
    ensures i == k
  {
  }

  /** The index of the row the query returns, when some row qualifies. */
  function Melhor(rows: seq<ParametroRow>, q: ConsultaParametro): (r: Option<nat>)
    ensures r.None? <==> forall i :: 0 <= i < |rows| ==> !Elegivel(rows[i], q)
    ensures r.Some? ==> Primeiro(rows, q, r.value)
    decreases |rows|
  {
    if rows == [] then None
    else
      var n := |rows| - 1;
      var ultimo := rows[n];
      var antes := Melhor(rows[..n], q);
      assert rows[..n] + [ultimo] == rows;
      if !Elegivel(ultimo, q) then
        assert forall i :: 0 <= i < n ==> rows[..n][i] == rows[i];
        if antes.Some? then PrimeiroEstende(rows[..n], ultimo, antes.value, q); antes else antes
      else if antes.None? then
        assert forall i :: 0 <= i < n ==> rows[..n][i] == rows[i];
        Some(n)
      else if Supera(ultimo, rows[antes.value]) then
        UltimoSupera(rows[..n], ultimo, antes.value, q);
        PrimeiroUltimo(rows[..n], ultimo, q);
        Some(n)
      else
        PrimeiroEstende(rows[..n], ultimo, antes.value, q);
        antes
  }

  /** Appending a row that does not beat the first row keeps it first. */
  lemma {:induction false} PrimeiroEstende(pre: seq<ParametroRow>, ultimo: ParametroRow, a: nat, q: ConsultaParametro)
    requires Primeiro(pre, q, a)
    requires Elegivel(ultimo, q) ==> !Supera(ultimo, pre[a])
    ensures Primeiro(pre + [ultimo], q, a)
  {
    var rows := pre + [ultimo];
    assert forall i :: 0 <= i < |pre| ==> rows[i] == pre[i];
  }

  /** Appending a row above every qualifying row makes it the first. */
  lemma {:induction false} PrimeiroUltimo(pre: seq<ParametroRow>, ultimo: ParametroRow, q: ConsultaParametro)
    requires Elegivel(ultimo, q)
    requires forall i :: 0 <= i < |pre| && Elegivel(pre[i], q) ==> !Supera(pre[i], ultimo) && Supera(ultimo, pre[i])
    ensures Primeiro(pre + [ultimo], q, |pre|)
  {
    var rows := pre + [ultimo];
    assert forall i :: 0 <= i < |pre| ==> rows[i] == pre[i];
    SuperaEncadeia(ultimo, ultimo, ultimo);
  }

  /** A row above the first of `pre` is above every qualifying row of `pre`. */
  lemma {:induction false} UltimoSupera(pre: seq<ParametroRow>, ultimo: ParametroRow, a: nat, q: ConsultaParametro)
    requires Primeiro(pre, q, a) && Supera(ultimo, pre[a])
    ensures forall i :: 0 <= i < |pre| && Elegivel(pre[i], q) ==> !Supera(pre[i], ultimo) && Supera(ultimo, pre[i])
  {
    forall i | 0 <= i < |pre| && Elegivel(pre[i], q)
      ensures !Supera(pre[i], ultimo) && Supera(ultimo, pre[i])
    {
      SuperaEncadeia(ultimo, pre[a], pre[i]);
      SuperaEncadeia(ultimo, pre[i], pre[i]);
    }
  }

  /** `obter_parametro_decimal`: the `valor_decimal` of the row the query
      returns, which is None when no row qualifies and also when that row's
      value is NULL, whatever the rows below it hold. */
  function ObterParametroDecimal(rows: seq<ParametroRow>, q: ConsultaParametro): (r: Option<real>)
    ensures (forall i :: 0 <= i < |rows| ==> !Elegivel(rows[i], q)) ==> r.None?
    ensures forall i :: Primeiro(rows, q, i) ==> r == rows[i].valorDecimal
    ensures r.Some? ==> exists i :: Primeiro(rows, q, i) && rows[i].valorDecimal == r
  {
    var m := Melhor(rows, q);
    if m.None? then None
    else
      assert forall i :: Primeiro(rows, q, i) ==> i == m.value by {
        forall i | Primeiro(rows, q, i) ensures i == m.value {
          PrimeiroUnico(rows, q, i, m.value);
        }
      }
      rows[m.value].valorDecimal
  }

  /** One step of `Melhor`: the choice after appending a row. */
  lemma {:induction false} MelhorSnoc(l: seq<ParametroRow>, y: ParametroRow, q: ConsultaParametro)
    ensures Melhor(l + [y], q) ==
      (var m := Melhor(l, q);
       if !Elegivel(y, q) then m
       else if m.None? || Supera(y, l[m.value]) then Some(|l|)
       else m)
  {
    assert (l + [y])[..|l|] == l;
  }

  /** Renumbers an index into `a + b` as an index into `a + [x] + b`. */
  function Desloca(m: Option<nat>, k: nat): (r: Option<nat>)
    ensures r.None? <==> m.None?
    ensures m.Some? ==> r.value == (if m.value < k then m.value else m.value + 1)
  {
    if m.None? then None else if m.value < k then m else Some(m.value + 1)
  }

  /** A row the query filters out changes nothing, wherever it stands. */
  lemma {:induction false} MelhorIgnoraInelegivel(a: seq<ParametroRow>, x: ParametroRow, b: seq<ParametroRow>, q: ConsultaParametro)
    requires !Elegivel(x, q)
    ensures Melhor(a + [x] + b, q) == Desloca(Melhor(a + b, q), |a|)
    decreases |b|
  {
    if b == [] {
      assert a + [x] + b == a + [x];
      assert a + b == a;
      MelhorSnoc(a, x, q);
    } else {
      var b', y := b[..|b| - 1], b[|b| - 1];
      var l1, l2 := a + [x] + b', a + b';
      MelhorIgnoraInelegivel(a, x, b', q);
      var m2 := Melhor(l2, q);
      if m2.Some? {
        LinhaDesloca(a, x, b', m2.value);
      }
      MelhorDeslocaPasso(l1, l2, y, |a|, q);
      SplitLast(a, x, b);
    }
  }

  /** The induction step of `MelhorIgnoraInelegivel`: appending the same row
      to both lists keeps the renumbering. */
  lemma {:induction false} MelhorDeslocaPasso(l1: seq<ParametroRow>, l2: seq<ParametroRow>, y: ParametroRow, k: nat, q: ConsultaParametro)
    requires |l1| == |l2| + 1 && k <= |l2|
    requires Melhor(l1, q) == Desloca(Melhor(l2, q), k)
    requires Melhor(l2, q).Some? ==> l1[Desloca(Melhor(l2, q), k).value] == l2[Melhor(l2, q).value]
    ensures Melhor(l1 + [y], q) == Desloca(Melhor(l2 + [y], q), k)
  {
    var m1, m2 := Melhor(l1, q), Melhor(l2, q);
    MelhorSnoc(l1, y, q);
    MelhorSnoc(l2, y, q);
    if Elegivel(y, q) && m2.Some? {
      assert l1[m1.value] == l2[m2.value];
      if Supera(y, l2[m2.value]) {
        assert Melhor(l1 + [y], q) == Some(|l1|);
        assert Melhor(l2 + [y], q) == Some(|l2|);
      } else {
        assert Melhor(l1 + [y], q) == m1;
        assert Melhor(l2 + [y], q) == m2;
      }
    }
  }

  /** Hence the value looked up does not depend on rows the query filters out. */
  lemma {:induction false} ParametroIgnoraInelegivel(a: seq<ParametroRow>, x: ParametroRow, b: seq<ParametroRow>, q: ConsultaParametro)
    requires !Elegivel(x, q)
    ensures ObterParametroDecimal(a + [x] + b, q) == ObterParametroDecimal(a + b, q)
  {
    var l1, l2 := a + [x] + b, a + b;
    calc {
      ObterParametroDecimal(l1, q);
    == { ParametroDoMelhor(l1, q); }
      ValorEm(l1, Melhor(l1, q));
    == { MelhorIgnoraInelegivel(a, x, b, q); }
      ValorEm(l1, Desloca(Melhor(l2, q), |a|));
    == { ValorEmDesloca(a, x, b, Melhor(l2, q)); }
      ValorEm(l2, Melhor(l2, q));
    == { ParametroDoMelhor(l2, q); }
      ObterParametroDecimal(l2, q);
    }
  }

  /** The `valor_decimal` of the row at index `m`, if there is one. */
  function ValorEm(rows: seq<ParametroRow>, m: Option<nat>): Option<real> {
    if m.None? || m.value >= |rows| then None else rows[m.value].valorDecimal
  }

  /** The lookup reads the value of the row `Melhor` picks. */
  lemma {:induction false} ParametroDoMelhor(rows: seq<ParametroRow>, q: ConsultaParametro)
    ensures ObterParametroDecimal(rows, q) == ValorEm(rows, Melhor(rows, q))
  {
  }

  /** Renumbering past an inserted row reads the same row. */
  lemma {:induction false} ValorEmDesloca(a: seq<ParametroRow>, x: ParametroRow, b: seq<ParametroRow>, m: Option<nat>)
    ensures ValorEm(a + [x] + b, Desloca(m, |a|)) == ValorEm(a + b, m)
  {
    if m.Some? && m.value < |a| + |b| {
      LinhaDesloca(a, x, b, m.value);
    }
  }

  /** Row `i` of `a + b` is row `Desloca(i)` of `a + [x] + b`. */
  lemma {:induction false} LinhaDesloca<T>(a: seq<T>, x: T, b: seq<T>, i: nat)
    requires i < |a| + |b|
    ensures (a + [x] + b)[Desloca(Some(i), |a|).value] == (a + b)[i]
  {
    if i < |a| {
      assert (a + [x] + b)[i] == a[i] == (a + b)[i];
    } else {
      assert (a + [x] + b)[i + 1] == b[i - |a|] == (a + b)[i];
    }
  }

  /** A row more specific than every other qualifying row decides the
      lookup: when its value is NULL the result is None, even when less
      specific rows hold a value. */
  lemma {:induction false} NuloEspecificoVence(rows: seq<ParametroRow>, q: ConsultaParametro, e: int)
    requires 0 <= e < |rows| && Elegivel(rows[e], q) && rows[e].valorDecimal.None?
    requires forall j :: 0 <= j < |rows| && j != e && Elegivel(rows[j], q) ==> Score(rows[j]) < Score(rows[e])
    ensures ObterParametroDecimal(rows, q).None?
  {
    assert !Supera(rows[e], rows[e]);
    assert Primeiro(rows, q, e);
  }

  /** With no dimension requested every row of the code that is in force
      qualifies, whatever its dimension columns hold. */
  lemma {:induction false} SemDimensaoNaoFiltra(p: ParametroRow, q: ConsultaParametro)
    requires q.idFilial.None? && q.idTipoVenda.None? && q.idModalidadeFin.None?
    ensures Elegivel(p, q) <==> Vigente(p, q)
  {
  }

  // ---------------------------------------------------------------------
  // obter_config_dn over tb_cm_margem_config_dn

  /** The arguments of `obter_config_dn`. */
  datatype ConsultaDn = ConsultaDn(
    idProduto: int,
    idFilial: int,
    idTipoVenda: int,
    idModalidadeFin: Option<int>,
    possuiAf: bool,
    ano: int,
    mes: Option<int>)

  /** What the lookup returns. */
  datatype DnConfig = DnConfig(idDn: int, valorDn: real, ano: int, mes: Option<int>)

  /** The key the query asks for: a missing modality or month becomes 0,
      to meet the computed `*_zero` columns. */
  function ChaveConsulta(c: ConsultaDn): (k: ChaveDn)
    ensures k.modalidadeZero == OuZero(c.idModalidadeFin) && k.mesZero == OuZero(c.mes)
    ensures k.idProduto == c.idProduto && k.idFilial == c.idFilial && k.idTipoVenda == c.idTipoVenda
    ensures k.possuiAf == c.possuiAf && k.ano == c.ano
  {
    ChaveDn(c.idProduto, c.idFilial, c.idTipoVenda, OuZero(c.idModalidadeFin),
            c.possuiAf, c.ano, OuZero(c.mes))
  }

  predicate Casa(row: DnRow, c: ConsultaDn) {
    Chave(row) == ChaveConsulta(c)
  }

  /** `a` sorts strictly before `b` in `ORDER BY data_referencia DESC`,
      a NULL reference date sorting last. */
  predicate MaisRecente(a: Option<Data>, b: Option<Data>) {
    a.Some? && (b.None? || !NaoDepois(a.value, b.value))
  }

  lemma {:induction false} MaisRecenteEncadeia(a: Option<Data>, b: Option<Data>, c: Option<Data>)
    ensures MaisRecente(a, b) ==> !MaisRecente(b, a)
    ensures MaisRecente(a, b) && !MaisRecente(c, b) ==> MaisRecente(a, c)
  {
    if a.Some? && b.Some? { NaoDepoisTotal(a.value, b.value); }
    if b.Some? && c.Some? { NaoDepoisTotal(b.value, c.value); }
    if a.Some? && c.Some? { NaoDepoisTotal(a.value, c.value); }
  }

  /** The index of the row the query returns: a matching row with the latest
      reference date, the earliest such row on a tie. */
  function MelhorDn(rows: seq<DnRow>, c: ConsultaDn): (r: Option<nat>)
    ensures r.None? <==> forall i :: 0 <= i < |rows| ==> !Casa(rows[i], c)
    ensures r.Some? ==> r.value < |rows| && Casa(rows[r.value], c)
    ensures r.Some? ==> forall i :: 0 <= i < |rows| && Casa(rows[i], c) ==>
                          !MaisRecente(rows[i].dataReferencia, rows[r.value].dataReferencia)
    decreases |rows|
  {
    if rows == [] then None
    else
      var n := |rows| - 1;
      var ultimo := rows[n];
      var antes := MelhorDn(rows[..n], c);
      assert forall i :: 0 <= i < n ==> rows[..n][i] == rows[i];
      if !Casa(ultimo, c) then antes
      else if antes.None? then Some(n)
      else if MaisRecente(ultimo.dataReferencia, rows[antes.value].dataReferencia) then
        assert forall i :: 0 <= i < n && Casa(rows[i], c) ==>
                 !MaisRecente(rows[i].dataReferencia, ultimo.dataReferencia) by {
          forall i | 0 <= i < n && Casa(rows[i], c)
            ensures !MaisRecente(rows[i].dataReferencia, ultimo.dataReferencia)
          {
            MaisRecenteEncadeia(ultimo.dataReferencia, rows[antes.value].dataReferencia, rows[i].dataReferencia);
            MaisRecenteEncadeia(ultimo.dataReferencia, rows[i].dataReferencia, rows[i].dataReferencia);
          }
        }
        Some(n)
      else antes
  }

  function Configuracao(row: DnRow): (d: DnConfig)
    ensures d.idDn == row.idDn && d.valorDn == row.valorDn && d.ano == row.ano && d.mes == row.mes
  {
    DnConfig(row.idDn, row.valorDn, row.ano, row.mes)
  }

  /** `obter_config_dn`: the chosen row's id, amount, year and month, or None
      when no row has the requested key. */
  function ObterConfigDn(rows: seq<DnRow>, c: ConsultaDn): (r: Option<DnConfig>)
    ensures r.None? <==> forall i :: 0 <= i < |rows| ==> !Casa(rows[i], c)
    ensures r.Some? ==> exists i :: 0 <= i < |rows| && Casa(rows[i], c) && r.value == Configuracao(rows[i])
  {
    var m := MelhorDn(rows, c);
    if m.None? then None else Some(Configuracao(rows[m.value]))
  }

  /** In a table that keeps its unique key, the lookup finds the one row
      with the requested key, whatever the reference dates. */
  lemma {:induction false} ConfigDnUnica(rows: seq<DnRow>, c: ConsultaDn, i: nat)
    requires TabelaValida(rows)
    requires i < |rows| && Casa(rows[i], c)
    ensures ObterConfigDn(rows, c) == Some(Configuracao(rows[i]))
  {
    assert MelhorDn(rows, c).Some?;
  }

  /** Asking for a month 1..12 never returns a year-only row (NULL month):
      the answer carries exactly the requested month and year. */
  lemma {:induction false} ConfigDnMesPedido(rows: seq<DnRow>, c: ConsultaDn, m: int)
    requires forall i :: 0 <= i < |rows| ==> LinhaValida(rows[i])
    requires c.mes == Some(m) && 1 <= m <= 12
    ensures ObterConfigDn(rows, c).Some? ==> ObterConfigDn(rows, c).value.mes == Some(m)
    ensures ObterConfigDn(rows, c).Some? ==> ObterConfigDn(rows, c).value.ano == c.ano
  {
    var r := ObterConfigDn(rows, c);
    if r.Some? {
      var i :| 0 <= i < |rows| && Casa(rows[i], c) && r.value == Configuracao(rows[i]);
      assert MesZero(rows[i]) == m;
      MesZeroNulo(rows[i]);
    }
  }
}
