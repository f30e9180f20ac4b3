/** `app/domain/config_dn.py`: the negotiated-cost (DN) table.  A row is
    keyed by product, branch, sale type, financing modality, AF flag, year
    and month; a NULL modality or month is stored as 0 in the computed key
    columns, so that NULL takes part in the unique key. */
module ConfigDn {
  import opened PyText
  import opened Rounding

  /** A calendar date; valid dates compare field by field. */
  datatype Data = Data(ano: int, mes: int, dia: int)

  /** A calendar date as a `date` object holds it: month 1..12, day 1..31. */
  predicate DataValida(d: Data) {
    1 <= d.mes <= 12 && 1 <= d.dia <= 31
  }

  /** `a <= b` for dates. */
  predicate NaoDepois(a: Data, b: Data) {
    a.ano < b.ano || (a.ano == b.ano && (a.mes < b.mes || (a.mes == b.mes && a.dia <= b.dia)))
  }

  /** Date order is total. */
  lemma {:induction false} NaoDepoisTotal(a: Data, b: Data)
    ensures NaoDepois(a, b) || NaoDepois(b, a)
    ensures NaoDepois(a, b) && NaoDepois(b, a) ==> a == b
  {
  }

  /** A row of `tb_cm_margem_config_dn`. */
  datatype DnRow = DnRow(
    idDn: int,
    idProduto: int,
    idFilial: int,
    idTipoVenda: int,
    idModalidadeFin: Option<int>,
    possuiAf: bool,
    ano: int,
    mes: Option<int>,
    dataReferencia: Option<Data>,
    valorDn: real)

  /** `ISNULL(x, 0)`: the value, or 0 for NULL. */
  function OuZero(x: Option<int>): (r: int)
    ensures x.None? ==> r == 0
    ensures x.Some? ==> r == x.value
  {
    if x.Some? then x.value else 0
  }

  /** The computed column `id_modalidade_fin_zero`. */
  function ModalidadeZero(row: DnRow): int {
    OuZero(row.idModalidadeFin)
  }

  /** The computed column `mes_zero`. */
  function MesZero(row: DnRow): int {
    OuZero(row.mes)
  }

  /** The columns of `UQ_tb_cm_margem_config_dn_chave`. */
  datatype ChaveDn = ChaveDn(
    idProduto: int, idFilial: int, idTipoVenda: int, modalidadeZero: int,
    possuiAf: bool, ano: int, mesZero: int)

  function Chave(row: DnRow): (k: ChaveDn)
    ensures k.modalidadeZero == ModalidadeZero(row) && k.mesZero == MesZero(row)
  {
    ChaveDn(row.idProduto, row.idFilial, row.idTipoVenda, ModalidadeZero(row),
            row.possuiAf, row.ano, MesZero(row))
  }

  /** The check constraints on one row: the month is NULL or 1..12, the year
      2000..2100, and the amount has two decimals. */
  predicate LinhaValida(row: DnRow) {
    && (row.mes.None? || 1 <= row.mes.value <= 12)
    && 2000 <= row.ano <= 2100
    && IsCents(row.valorDn)
  }

  /** The table: every row valid and no two rows with the same key. */
  predicate TabelaValida(rows: seq<DnRow>) {
    && (forall i :: 0 <= i < |rows| ==> LinhaValida(rows[i]))
    && (forall i, j :: 0 <= i < j < |rows| ==> Chave(rows[i]) != Chave(rows[j]))
  }

  /** A stored month is never 0, so `mes_zero` is 0 exactly for a NULL
      month: a year-only row and a row for some month never share a key. */
  lemma {:induction false} MesZeroNulo(row: DnRow)
    requires LinhaValida(row)
    ensures MesZero(row) == 0 <==> row.mes.None?
    ensures 0 <= MesZero(row) <= 12
  {
  }
}
