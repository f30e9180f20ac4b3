/** The machine autocomplete of the sale form: lookup maps built once over
    the machine catalogue, the de-duplicated and relevance-ordered
    suggestion lists for brand, type, model and code, and the keyboard
    selection of one suggestion list. The catalogue is a parameter. */
module AutocompleteMaquinas {
  import opened PyText

  datatype Machine = Machine(marca: string, tipo: string, modelo: string, codigo: string, valorCompra: real)

  /** The four searchable attributes of a machine. */
  datatype Field = Brand | Kind | Model | Code

  function FieldOf(m: Machine, f: Field): string {
    match f
    case Brand => m.marca
    case Kind => m.tipo
    case Model => m.modelo
    case Code => m.codigo
  }

  /** Every value occurs at most once. */
  ghost predicate NoRepeats(s: seq<string>) {
    forall x :: multiset(s)[x] <= 1
  }

  /** `uniq(arr)`, `[...new Set(arr)]`: each value once, at its first occurrence. */
  function Uniq(s: seq<string>): (r: seq<string>)
    ensures forall x :: x in r <==> x in s
    ensures NoRepeats(r)
    ensures |r| <= |s|
  {
    if s == [] then []
    else
      var u := Uniq(s[..|s| - 1]);
      var x := s[|s| - 1];
      assert s == s[..|s| - 1] + [x];
      if x in u then u else u + [x]
  }

  /** Position of the first occurrence of `x` in `s`. */
  function FirstIndex(s: seq<string>, x: string): (i: nat)
    requires x in s
    ensures i < |s| && s[i] == x
    ensures forall k :: 0 <= k < i ==> s[k] != x
  {
    if s[0] == x then 0 else 1 + FirstIndex(s[1..], x)
  }

  lemma {:induction false} FirstIndexPrefix(s: seq<string>, x: string, n: nat)
    requires n <= |s| && x in s[..n]
    ensures FirstIndex(s, x) == FirstIndex(s[..n], x)
  {
    var i := FirstIndex(s[..n], x);
    var j := FirstIndex(s, x);
    assert s[i] == x;
    assert j <= i;
    assert s[..n][j] == s[j];
  }

  /** `uniq` keeps the order in which values first appear. */
  lemma {:induction false} UniqKeepsFirstOrder(s: seq<string>)
    ensures forall i, j :: 0 <= i < j < |Uniq(s)| ==> FirstIndex(s, Uniq(s)[i]) < FirstIndex(s, Uniq(s)[j])
  {
    if s != [] {
      var p := s[..|s| - 1];
      var u := Uniq(p);
      var x := s[|s| - 1];
      UniqKeepsFirstOrder(p);
      forall y | y in u ensures FirstIndex(s, y) == FirstIndex(p, y) && FirstIndex(s, y) < |p| {
        FirstIndexPrefix(s, y, |p|);
      }
      if x !in u {
        assert FirstIndex(s, x) == |p| by {
          forall k | 0 <= k < |p| ensures s[k] != x {
            assert s[k] == p[k];
          }
        }
      }
    }
  }

  /** `a.localeCompare(b) <= 0`, taken as code-point order. */
  predicate LexLe(a: string, b: string) {
    a == [] || (b != [] && (a[0] < b[0] || (a[0] == b[0] && LexLe(a[1..], b[1..]))))
  }

  lemma {:induction false} LexLeTotal(a: string, b: string)
    ensures LexLe(a, b) || LexLe(b, a)
  {
    if a != [] && b != [] && a[0] == b[0] {
      LexLeTotal(a[1..], b[1..]);
    }
  }

  lemma {:induction false} LexLeTransitive(a: string, b: string, c: string)
    requires LexLe(a, b) && LexLe(b, c)
    ensures LexLe(a, c)
  {
    if a != [] && b != [] && c != [] && a[0] == b[0] && b[0] == c[0] {
      LexLeTransitive(a[1..], b[1..], c[1..]);
    }
  }

  /** 0 for an entry whose lowercase form starts with the lowercase term, 1 otherwise. */
  function Rank(term: string, a: string): nat {
    if StartsWith(Lower(a), Lower(term)) then 0 else 1
  }

  /** The comparator of `ordenarRelevancia` does not put `b` before `a`. */
  predicate Before(term: string, a: string, b: string) {
    Rank(term, a) < Rank(term, b) || (Rank(term, a) == Rank(term, b) && LexLe(Lower(a), Lower(b)))
  }

  lemma {:induction false} BeforeTotal(term: string, a: string, b: string)
    ensures Before(term, a, b) || Before(term, b, a)
  {
    LexLeTotal(Lower(a), Lower(b));
  }

  lemma {:induction false} BeforeTransitive(term: string, a: string, b: string, c: string)
    requires Before(term, a, b) && Before(term, b, c)
    ensures Before(term, a, c)
  {
    if Rank(term, a) == Rank(term, b) == Rank(term, c) {
      LexLeTransitive(Lower(a), Lower(b), Lower(c));
    }
  }

  ghost predicate Sorted(term: string, s: seq<string>) {
    forall i, j :: 0 <= i < j < |s| ==> Before(term, s[i], s[j])
  }

  /** One step of the sort: `x` placed into an ordered list. */
  function Insert(term: string, x: string, s: seq<string>): (r: seq<string>)
    requires Sorted(term, s)
    ensures Sorted(term, r)
    ensures multiset(r) == multiset(s) + multiset{x}
  {
    if s == [] then [x]
    else if Before(term, x, s[0]) then
      assert forall j :: 0 < j < |s| ==> Before(term, x, s[j]) by {
        forall j | 0 < j < |s| ensures Before(term, x, s[j]) {
          BeforeTransitive(term, x, s[0], s[j]);
        }
      }
      [x] + s
    else
      BeforeTotal(term, x, s[0]);
      var rest := Insert(term, x, s[1..]);
      HeadBeforeInserted(term, x, s, rest);
      SortedCons(term, s[0], rest);
      assert s == [s[0]] + s[1..];
      [s[0]] + rest
  }

  /** The head of an ordered list comes before everything in the rest of it
      with `x` inserted, when it comes before `x`. */
  lemma {:induction false} HeadBeforeInserted(term: string, x: string, s: seq<string>, rest: seq<string>)
    requires s != [] && Sorted(term, s) && Before(term, s[0], x)
    requires multiset(rest) == multiset(s[1..]) + multiset{x}
    ensures forall y :: y in rest ==> Before(term, s[0], y)
  {
    forall y | y in rest ensures Before(term, s[0], y) {
      assert y in multiset(rest);
      if y != x {
        assert y in multiset(s[1..]);
        var j :| 0 <= j < |s[1..]| && s[1..][j] == y;
        assert s[j + 1] == y;
      }
    }
  }

  /** An entry that comes before everything in an ordered list heads it. */
  lemma {:induction false} SortedCons(term: string, a: string, rest: seq<string>)
    requires Sorted(term, rest) && forall y :: y in rest ==> Before(term, a, y)
    ensures Sorted(term, [a] + rest)
  {
    var t := [a] + rest;
    forall i, j | 0 <= i < j < |t| ensures Before(term, t[i], t[j]) {
      assert t[j] == rest[j - 1];
      if i > 0 {
        assert t[i] == rest[i - 1];
      }
    }
  }

  /** `ordenarRelevancia(lista, termo)`: the same entries, those starting with
      the term first, each group in lowercase order. */
  function OrdenarRelevancia(lista: seq<string>, termo: string): (r: seq<string>)
    ensures Sorted(termo, r)
    ensures multiset(r) == multiset(lista)
  {
    if lista == [] then []
    else
      assert lista == [lista[0]] + lista[1..];
      Insert(termo, lista[0], OrdenarRelevancia(lista[1..], termo))
  }

  /** Entries starting with the term come before every entry that does not. */
  lemma {:induction false} PrefixMatchesFirst(lista: seq<string>, termo: string, i: nat, j: nat)
    requires i < j < |OrdenarRelevancia(lista, termo)|
    requires StartsWith(Lower(OrdenarRelevancia(lista, termo)[j]), Lower(termo))
    ensures StartsWith(Lower(OrdenarRelevancia(lista, termo)[i]), Lower(termo))
  {
    var r := OrdenarRelevancia(lista, termo);
    assert Before(termo, r[i], r[j]);
  }

  /** `base.filter(m => field(m).toLowerCase().includes(t)).map(field)`. */
  function Matching(base: seq<Machine>, f: Field, t: string): (r: seq<string>)
    ensures forall x :: x in r <==> exists m :: m in base && FieldOf(m, f) == x && Contains(Lower(x), t)
  {
    if base == [] then []
    else
      var v := FieldOf(base[0], f);
      assert base == [base[0]] + base[1..];
      (if Contains(Lower(v), t) then [v] else []) + Matching(base[1..], f, t)
  }

  /** The suggestions for `txt` drawn from `base`: each matching value once,
      in relevance order. */
  function Suggestions(base: seq<Machine>, f: Field, txt: string): (r: seq<string>)
    ensures forall x :: x in r <==> exists m :: m in base && FieldOf(m, f) == x && Contains(Lower(x), Lower(txt))
    ensures NoRepeats(r)
    ensures Sorted(txt, r)
  {
    var u := Uniq(Matching(base, f, Lower(txt)));
    var r := OrdenarRelevancia(u, txt);
    assert forall x :: x in r <==> x in multiset(r);
    assert forall x :: x in u <==> x in multiset(u);
    r
  }

  /** The machines whose `f` is `v`, in catalogue order. */
  function WithField(db: seq<Machine>, f: Field, v: string): (r: seq<Machine>)
    ensures forall m :: m in r <==> m in db && FieldOf(m, f) == v
  {
    if db == [] then []
    else
      var last := db[|db| - 1];
      assert db == db[..|db| - 1] + [last];
      WithField(db[..|db| - 1], f, v) + (if FieldOf(last, f) == v then [last] else [])
  }

  lemma {:induction false} WithFieldNone(db: seq<Machine>, f: Field, v: string)
    requires forall m :: m in db ==> FieldOf(m, f) != v
    ensures WithField(db, f, v) == []
  {
    if db != [] {
      assert db[|db| - 1] in db;
      WithFieldNone(db[..|db| - 1], f, v);
    }
  }

  /** Index of the last machine whose `f` is `v`, or -1. */
  function LastWith(db: seq<Machine>, f: Field, v: string): (i: int)
    ensures -1 <= i < |db|
    ensures i >= 0 ==> FieldOf(db[i], f) == v
    ensures forall k :: i < k < |db| ==> FieldOf(db[k], f) != v
  {
    if db == [] then -1
    else if FieldOf(db[|db| - 1], f) == v then |db| - 1
    else LastWith(db[..|db| - 1], f, v)
  }

  /** A map from a field value to the LAST machine carrying it. */
  ghost predicate LastIndex(mp: map<string, Machine>, db: seq<Machine>, f: Field) {
    (forall v :: v in mp <==> LastWith(db, f, v) >= 0)
    && (forall v :: v in mp ==> LastWith(db, f, v) >= 0 && mp[v] == db[LastWith(db, f, v)])
  }

  /** A map from a field value to ALL machines carrying it, in catalogue order. */
  ghost predicate GroupIndex(mp: map<string, seq<Machine>>, db: seq<Machine>, f: Field) {
    (forall v :: v in mp <==> WithField(db, f, v) != [])
    && (forall v :: v in mp ==> mp[v] == WithField(db, f, v))
  }

  /** The four lookup maps of the module. */
  datatype Indexes = Indexes(
    byCode: map<string, Machine>,
    byModel: map<string, Machine>,
    byKind: map<string, seq<Machine>>,
    byBrand: map<string, seq<Machine>>)

  ghost predicate IndexesOf(ix: Indexes, db: seq<Machine>) {
    LastIndex(ix.byCode, db, Code) && LastIndex(ix.byModel, db, Model)
    && GroupIndex(ix.byKind, db, Kind) && GroupIndex(ix.byBrand, db, Brand)
  }

  lemma {:induction false} LastIndexStep(mp: map<string, Machine>, db: seq<Machine>, m: Machine, f: Field)
    requires LastIndex(mp, db, f)
    ensures LastIndex(mp[FieldOf(m, f) := m], db + [m], f)
  {
    var s := db + [m];
    assert s[..|s| - 1] == db;
  }

  lemma {:induction false} GroupIndexStep(mp: map<string, seq<Machine>>, db: seq<Machine>, m: Machine, f: Field)
    requires GroupIndex(mp, db, f)
    ensures GroupIndex(mp[FieldOf(m, f) := (if FieldOf(m, f) in mp then mp[FieldOf(m, f)] else []) + [m]], db + [m], f)
  {
    var s := db + [m];
    var v := FieldOf(m, f);
    var grown := mp[v := (if v in mp then mp[v] else []) + [m]];
    forall k ensures k in grown <==> WithField(s, f, k) != [] {
      WithFieldSnoc(db, m, f, k);
    }
    forall k | k in grown ensures grown[k] == WithField(s, f, k) {
      WithFieldSnoc(db, m, f, k);
      if k == v {
        assert WithField(s, f, k) == WithField(db, f, k) + [m];
      } else {
        assert grown[k] == mp[k] == WithField(db, f, k);
      }
    }
  }

  /** One more machine at the end adds it to its own group only. */
  lemma {:induction false} WithFieldSnoc(db: seq<Machine>, m: Machine, f: Field, k: string)
    ensures WithField(db + [m], f, k) == WithField(db, f, k) + (if FieldOf(m, f) == k then [m] else [])
  {
    var s := db + [m];
    assert s[..|s| - 1] == db;
  }

  /** `if (!map.has(k)) map.set(k, []); map.get(k).push(m);` */
  method Push(mp: map<string, seq<Machine>>, k: string, m: Machine) returns (grown: map<string, seq<Machine>>)
    ensures grown == mp[k := (if k in mp then mp[k] else []) + [m]]
  {
    grown := mp;
    if k !in grown {
      grown := grown[k := []];
    }
    grown := grown[k := grown[k] + [m]];
  }

  /** The loop that fills `mapCodigo`, `mapModelo`, `mapTipo` and `mapMarca`:
      a later machine with the same code or model replaces an earlier one,
      and type and brand collect every machine in catalogue order. */
  method BuildIndexes(db: seq<Machine>) returns (ix: Indexes)
    ensures IndexesOf(ix, db)
  {
    var mapCodigo: map<string, Machine> := map[];
    var mapModelo: map<string, Machine> := map[];
    var mapTipo: map<string, seq<Machine>> := map[];
    var mapMarca: map<string, seq<Machine>> := map[];
    for i := 0 to |db|
      invariant LastIndex(mapCodigo, db[..i], Code)
      invariant LastIndex(mapModelo, db[..i], Model)
      invariant GroupIndex(mapTipo, db[..i], Kind)
      invariant GroupIndex(mapMarca, db[..i], Brand)
    {
      var m := db[i];
      assert db[..i + 1] == db[..i] + [m];
      LastIndexStep(mapCodigo, db[..i], m, Code);
      LastIndexStep(mapModelo, db[..i], m, Model);
      GroupIndexStep(mapTipo, db[..i], m, Kind);
      GroupIndexStep(mapMarca, db[..i], m, Brand);
      mapCodigo := mapCodigo[m.codigo := m];
      mapModelo := mapModelo[m.modelo := m];
      mapTipo := Push(mapTipo, m.tipo, m);
      mapMarca := Push(mapMarca, m.marca, m);
    }
    assert db[..|db|] == db;
    ix := Indexes(mapCodigo, mapModelo, mapTipo, mapMarca);
  }

  /** Of two catalogue rows with the same model, the later one is what the
      model resolves to (in the shipped catalogue "W20F Cabine" resolves to
      code ZOMS, not ZWUA). */
  lemma {:induction false} LaterModelWins(ix: Indexes, db: seq<Machine>, i: nat, j: nat)
    requires IndexesOf(ix, db)
    requires i < j < |db| && db[i].modelo == db[j].modelo
    requires forall k :: j < k < |db| ==> db[k].modelo != db[j].modelo
    ensures ix.byModel[db[i].modelo] == db[j]
  {
    assert FieldOf(db[j], Model) == db[j].modelo;
    assert LastWith(db, Model, db[j].modelo) == j;
  }

  /** `filtrarMarcas(txt)`. */
  function FiltrarMarcas(db: seq<Machine>, txt: string): (r: seq<string>)
    ensures forall x :: x in r <==> exists m :: m in db && m.marca == x && Contains(Lower(x), Lower(txt))
    ensures NoRepeats(r)
  {
    Suggestions(db, Brand, txt)
  }

  /** `filtrarTipos(marca, txt)`: the types of the given brand (all types
      for an empty brand), looked up in the brand map. */
  function FiltrarTipos(db: seq<Machine>, ix: Indexes, marca: string, txt: string): (r: seq<string>)
    ensures NoRepeats(r) && Sorted(txt, r)
  {
    var base := if marca != [] then (if marca in ix.byBrand then ix.byBrand[marca] else []) else db;
    Suggestions(base, Kind, txt)
  }

  /** With the brand map built from the catalogue, a brand no machine has
      gives no types, and a known brand gives exactly its machines' types. */
  lemma {:induction false} FiltrarTiposOfBrand(db: seq<Machine>, ix: Indexes, marca: string, txt: string)
    requires IndexesOf(ix, db) && marca != []
    ensures (forall m :: m in db ==> m.marca != marca) ==> FiltrarTipos(db, ix, marca, txt) == []
    ensures forall x :: x in FiltrarTipos(db, ix, marca, txt) <==>
      exists m :: m in db && m.marca == marca && m.tipo == x && Contains(Lower(x), Lower(txt))
  {
    if forall m :: m in db ==> m.marca != marca {
      WithFieldNone(db, Brand, marca);
      assert Matching([], Kind, Lower(txt)) == [];
    }
  }

  /** A machine passes the brand and type narrowing of `filtrarModelos`. */
  predicate Narrowed(m: Machine, marca: string, tipo: string) {
    (marca != [] ==> m.marca == marca) && (tipo != [] ==> m.tipo == tipo)
  }

  /** The machines of `filtrarModelos`/`filtrarCodigos`: the brand, then the
      type, narrow the catalogue when they are non-empty. */
  function Restrict(db: seq<Machine>, marca: string, tipo: string): (r: seq<Machine>)
    ensures forall m :: m in r <==> m in db && Narrowed(m, marca, tipo)
  {
    var byBrand := if marca != [] then WithField(db, Brand, marca) else db;
    if tipo != [] then WithField(byBrand, Kind, tipo) else byBrand
  }

  /** `filtrarModelos(marca, tipo, txt)`. */
  function FiltrarModelos(db: seq<Machine>, marca: string, tipo: string, txt: string): (r: seq<string>)
    ensures forall x :: x in r <==>
      exists m :: m in db && Narrowed(m, marca, tipo) && m.modelo == x && Contains(Lower(x), Lower(txt))
    ensures NoRepeats(r)
  {
    Suggestions(Restrict(db, marca, tipo), Model, txt)
  }

  /** `filtrarCodigos(marca, tipo, txt)`. */
  function FiltrarCodigos(db: seq<Machine>, marca: string, tipo: string, txt: string): (r: seq<string>)
    ensures forall x :: x in r <==>
      exists m :: m in db && Narrowed(m, marca, tipo) && m.codigo == x && Contains(Lower(x), Lower(txt))
    ensures NoRepeats(r)
  {
    Suggestions(Restrict(db, marca, tipo), Code, txt)
  }

  /** JavaScript's `a % n` (the sign of the dividend). */
  function JsRem(a: int, n: int): int
    requires n > 0
  {
    if a >= 0 then a % n else -((-a) % n)
  }

  /** ArrowDown: `(selIndex + 1) % n`. */
  function NextIndex(i: int, n: int): (r: int)
    requires n > 0 && -1 <= i < n
    ensures 0 <= r < n
    ensures r == if i == n - 1 then 0 else i + 1
  {
    JsRem(i + 1, n)
  }

  /** ArrowUp: `(selIndex - 1 + n) % n`; from no selection it lands on the
      last-but-one item when there are two or more. */
  function PrevIndex(i: int, n: int): (r: int)
    requires n > 0 && -1 <= i < n
    ensures 0 <= r < n
    ensures i > 0 ==> r == i - 1
    ensures i == 0 ==> r == n - 1
    ensures i == -1 ==> r == if n >= 2 then n - 2 else 0
  {
    JsRem(i - 1 + n, n)
  }

  /** ArrowDown and ArrowUp undo each other on a selected item. */
  lemma {:induction false} NextPrevInverse(i: int, n: int)
    requires n > 0 && 0 <= i < n
    ensures PrevIndex(NextIndex(i, n), n) == i
    ensures NextIndex(PrevIndex(i, n), n) == i
  {
  }

  datatype Key = ArrowDown | ArrowUp | Enter | Escape | OtherKey

  /** What a key press does to the list: nothing, highlight an item, pick an
      item (its click handler runs and the list closes), or close the list. */
  datatype Action = NoAction | Highlight(index: nat) | Choose(index: nat) | Close

  /** The keyboard state of one autocomplete field (`autocompleteCampo`):
      whether its suggestion box is open, how many selectable items it shows
      and `selIndex`. */
  class Selection {
    var open: bool
    var count: nat
    var selIndex: int

    ghost predicate Valid()
      reads this
    {
      selIndex == -1 || 0 <= selIndex < count
    }

    constructor()
      ensures Valid() && !open && count == 0 && selIndex == -1
    {
      open := false;
      count := 0;
      selIndex := -1;
    }

    /** The debounced input handler: a blank field closes the box (and keeps
        `selIndex`); otherwise the box shows the new suggestions and nothing
        is selected. An empty list shows only the "Nenhum resultado" line,
        which is not selectable. */
    method OnInput(value: string, suggestions: seq<string>)
      requires Valid()
      modifies this
      ensures Valid()
      ensures IsBlank(value) ==> !open && count == old(count) && selIndex == old(selIndex)
      ensures !IsBlank(value) ==> open && count == |suggestions| && selIndex == -1
    {
      if Strip(value) == [] {
        open := false;
      } else {
        open := true;
        count := |suggestions|;
        selIndex := -1;
      }
    }

    /** Scrolling, resizing, choosing with the mouse or clicking elsewhere
        closes the box. */
    method CloseBox()
      requires Valid()
      modifies this
      ensures Valid() && !open && count == old(count) && selIndex == old(selIndex)
    {
      open := false;
    }

    /** The keydown handler. */
    method OnKey(key: Key) returns (action: Action)
      requires Valid()
      modifies this
      ensures Valid()
      ensures !old(open) || old(count) == 0 ==> action == NoAction && unchanged(this)
      ensures old(open) && old(count) > 0 ==> count == old(count)
      ensures old(open) && old(count) > 0 && key == ArrowDown ==>
        open && selIndex == NextIndex(old(selIndex), count) && action == Highlight(selIndex)
      ensures old(open) && old(count) > 0 && key == ArrowUp ==>
        open && selIndex == PrevIndex(old(selIndex), count) && action == Highlight(selIndex)
      ensures old(open) && old(count) > 0 && key == Enter ==>
        selIndex == old(selIndex)
        && (if selIndex >= 0 then action == Choose(selIndex) && selIndex < count && !open
            else action == NoAction && open)
      ensures old(open) && old(count) > 0 && key == Escape ==> action == Close && !open && selIndex == old(selIndex)
      ensures old(open) && old(count) > 0 && key == OtherKey ==> action == NoAction && unchanged(this)
    {
      if !open || count == 0 {
        return NoAction;
      }
      match key {
        case ArrowDown =>
          selIndex := NextIndex(selIndex, count);
          action := Highlight(selIndex);
        case ArrowUp =>
          selIndex := PrevIndex(selIndex, count);
          action := Highlight(selIndex);
        case Enter =>
          if selIndex >= 0 {
            action := Choose(selIndex);
            open := false;
          } else {
            action := NoAction;
          }
        case Escape =>
          open := false;
          action := Close;
        case OtherKey =>
          action := NoAction;
      }
    }
  }
}
