/**
 * The product registration tab (`ProductRegistrationTab`): the distinct sorted
 * option lists, the `active`-column detection, the checks and saved records of
 * the evaporator, condenser and multi-split forms, and the pagination.
 *
 * `Number(...)` is the parameter `toNumber`, `JSON.parse` succeeding is
 * `parsesJson`, and `localeCompare(a, b) <= 0` is `leq`.
 */
module ProductRegistration {
  import opened Wrappers
  import opened Text
  import opened Collections

  // ---------------------------------------------------------------------------
  // Option lists and the `active` column
  // ---------------------------------------------------------------------------

  /** `!!v && v.trim() !== ''` */
  predicate Meaningful(v: Option<string>) {
    v.Some? && v.value != [] && Trim(v.value) != []
  }

  /** The values that survive the filter, as strings, in order. */
  function NonBlank(values: seq<Option<string>>): (r: seq<string>)
    ensures forall x :: x in r <==> Some(x) in values && !IsBlank(x)
  {
    if values == [] then []
    else
      var rest := NonBlank(values[1..]);
      assert values == [values[0]] + values[1..];
      if values[0].Some? then
        TrimEmptyIffBlank(values[0].value);
        if Meaningful(values[0]) then [values[0].value] + rest else rest
      else rest
  }

  /** `uniqueSorted`: the meaningful values, each once, sorted by the comparator. */
  function UniqueSorted(values: seq<Option<string>>, leq: (string, string) -> bool): (r: seq<string>)
    ensures multiset(r) == multiset(Dedupe(NonBlank(values)))
  {
    Sort(Dedupe(NonBlank(values)), leq)
  }

  /**
   * The list holds no blank string and no repetition, and holds exactly the
   * non-blank inputs, untrimmed; under a total preorder it is sorted.
   */
  lemma UniqueSortedSpec(values: seq<Option<string>>, leq: (string, string) -> bool)
    ensures var r := UniqueSorted(values, leq);
      && Distinct(r)
      && (forall i :: 0 <= i < |r| ==> !IsBlank(r[i]))
      && (forall x :: x in r <==> Some(x) in values && !IsBlank(x))
      && (TotalPreorder(leq) ==> SortedBy(r, leq))
  {
    var d := Dedupe(NonBlank(values));
    var n := NonBlank(values);
    assert forall x :: x in d <==> x in n;
    SortKeepsDistinct(d, leq);
    if TotalPreorder(leq) {
      SortSorted(d, leq);
    }
  }

  /** The list has one entry per distinct non-blank input. */
  lemma UniqueSortedLength(values: seq<Option<string>>, leq: (string, string) -> bool)
    ensures |UniqueSorted(values, leq)| == |set x | x in NonBlank(values)|
  {
    SortKeepsDistinct(Dedupe(NonBlank(values)), leq);
    DedupeLength(NonBlank(values));
  }

  /** The `active` field of a row: missing, `null`, or a boolean. */
  datatype ActiveField = Missing | NullActive | Flag(b: bool)

  /** `useActiveSupport`: some row has a boolean `active`. */
  function HasActiveSupport(rows: seq<ActiveField>): (r: bool)
    ensures r <==> exists i :: 0 <= i < |rows| && rows[i].Flag?
  {
    if rows == [] then false
    else
      var rest := HasActiveSupport(rows[1..]);
      assert forall i :: 1 <= i < |rows| ==> rows[1..][i - 1] == rows[i];
      if rows[0].Flag? then true else rest
  }

  // ---------------------------------------------------------------------------
  // The evaporator form
  // ---------------------------------------------------------------------------

  datatype EvapForm = EvapForm(marca: string, tipo: string, modelo: string, nominal: string, capacity: string)

  datatype EvapVerdict = EvapAccepted | EvapMissingField | EvapNotNumeric

  /** The evaporator `validate`. */
  function ValidateEvap(f: EvapForm, toNumber: string -> JsNumber): (v: EvapVerdict)
    ensures v == EvapMissingField <==> IsBlank(f.marca) || IsBlank(f.tipo) || IsBlank(f.modelo)
    ensures v == EvapAccepted <==>
      !IsBlank(f.marca) && !IsBlank(f.tipo) && !IsBlank(f.modelo)
      && toNumber(f.nominal).IsFinite() && toNumber(f.capacity).IsFinite()
  {
    TrimEmptyIffBlank(f.marca);
    TrimEmptyIffBlank(f.tipo);
    TrimEmptyIffBlank(f.modelo);
    if Trim(f.marca) == [] || Trim(f.tipo) == [] || Trim(f.modelo) == [] then EvapMissingField
    else if !toNumber(f.nominal).IsFinite() || !toNumber(f.capacity).IsFinite() then EvapNotNumeric
    else EvapAccepted
  }

  datatype EvapPayload = EvapPayload(marca: string, tipo: string, modelo: string, nominal: real, capacity: real)

  /** The evaporator `save` payload; nothing is saved when the form is refused. */
  function SaveEvap(f: EvapForm, toNumber: string -> JsNumber): (r: Option<EvapPayload>)
    ensures r.Some? <==> ValidateEvap(f, toNumber) == EvapAccepted
    ensures r.Some? ==> r.value.marca == Trim(f.marca) && r.value.tipo == Trim(f.tipo) && r.value.modelo == Trim(f.modelo)
    ensures r.Some? ==> r.value.marca != [] && r.value.tipo != [] && r.value.modelo != []
    ensures r.Some? ==> toNumber(f.nominal) == Finite(r.value.nominal) && toNumber(f.capacity) == Finite(r.value.capacity)
  {
    if ValidateEvap(f, toNumber) != EvapAccepted then None
    else
      TrimEmptyIffBlank(f.marca);
      TrimEmptyIffBlank(f.tipo);
      TrimEmptyIffBlank(f.modelo);
      Some(EvapPayload(Trim(f.marca), Trim(f.tipo), Trim(f.modelo), toNumber(f.nominal).r, toNumber(f.capacity).r))
  }

  // ---------------------------------------------------------------------------
  // The condenser form
  // ---------------------------------------------------------------------------

  datatype CondForm = CondForm(marca: string, hp: string, capacity: string, orientacao: string, voltagem: string, modelo: string)

  datatype CondVerdict = CondAccepted | CondMissingField | HpNotInteger | RealNotNumeric

  /** The condenser `validate`. */
  function ValidateCond(f: CondForm, toNumber: string -> JsNumber): (v: CondVerdict)
    ensures v == CondMissingField <==> IsBlank(f.marca) || IsBlank(f.orientacao) || IsBlank(f.modelo)
    ensures v == CondAccepted <==>
      !IsBlank(f.marca) && !IsBlank(f.orientacao) && !IsBlank(f.modelo)
      && toNumber(f.hp).IsInteger() && toNumber(f.capacity).IsFinite()
  {
    TrimEmptyIffBlank(f.marca);
    TrimEmptyIffBlank(f.orientacao);
    TrimEmptyIffBlank(f.modelo);
    if Trim(f.marca) == [] || Trim(f.orientacao) == [] || Trim(f.modelo) == [] then CondMissingField
    else if !toNumber(f.hp).IsInteger() then HpNotInteger
    else if !toNumber(f.capacity).IsFinite() then RealNotNumeric
    else CondAccepted
  }

  datatype CondPayload = CondPayload(marca: string, hp: int, capacity: real, orientacao: string, voltagem: Option<string>, modelo: string)

  /** The condenser `save` payload: strings trimmed, a blank voltage saved as `null`. */
  function SaveCond(f: CondForm, toNumber: string -> JsNumber): (r: Option<CondPayload>)
    ensures r.Some? <==> ValidateCond(f, toNumber) == CondAccepted
    ensures r.Some? ==> r.value.marca == Trim(f.marca) && r.value.orientacao == Trim(f.orientacao) && r.value.modelo == Trim(f.modelo)
    ensures r.Some? ==> toNumber(f.hp) == Finite(r.value.hp as real) && toNumber(f.capacity) == Finite(r.value.capacity)
    ensures r.Some? ==> (r.value.voltagem.None? <==> IsBlank(f.voltagem))
    ensures r.Some? && r.value.voltagem.Some? ==> r.value.voltagem.value == Trim(f.voltagem) && r.value.voltagem.value != []
  {
    if ValidateCond(f, toNumber) != CondAccepted then None
    else
      TrimEmptyIffBlank(f.voltagem);
      var v := Trim(f.voltagem);
      Some(CondPayload(Trim(f.marca), toNumber(f.hp).r.Floor, toNumber(f.capacity).r, Trim(f.orientacao),
                       if v == [] then None else Some(v), Trim(f.modelo)))
  }

  // ---------------------------------------------------------------------------
  // The multi-split form
  // ---------------------------------------------------------------------------

  datatype MultiForm = MultiForm(fabricante: string, tipo: string, nome: string, modelo: string,
                                 capNominal: string, capMax: string, maxEvaps: string, combinacoes: string)

  datatype MultiVerdict = MultiAccepted | MultiMissingField | CapacityNotInteger | MaxEvapsNotInteger | InvalidJson

  /** The multi-split `validate`; an empty maximum-evaporators field is allowed. */
  function ValidateMulti(f: MultiForm, toNumber: string -> JsNumber, parsesJson: string -> bool): (v: MultiVerdict)
    ensures v == MultiMissingField <==> IsBlank(f.fabricante) || IsBlank(f.tipo) || IsBlank(f.nome) || IsBlank(f.modelo)
    ensures v == MultiAccepted <==>
      && !IsBlank(f.fabricante) && !IsBlank(f.tipo) && !IsBlank(f.nome) && !IsBlank(f.modelo)
      && toNumber(f.capNominal).IsInteger() && toNumber(f.capMax).IsInteger()
      && (f.maxEvaps != [] ==> toNumber(f.maxEvaps).IsInteger())
      && !IsBlank(f.combinacoes) && parsesJson(f.combinacoes)
  {
    TrimEmptyIffBlank(f.fabricante);
    TrimEmptyIffBlank(f.tipo);
    TrimEmptyIffBlank(f.nome);
    TrimEmptyIffBlank(f.modelo);
    TrimEmptyIffBlank(f.combinacoes);
    if Trim(f.fabricante) == [] || Trim(f.tipo) == [] || Trim(f.nome) == [] || Trim(f.modelo) == [] then MultiMissingField
    else if !toNumber(f.capNominal).IsInteger() || !toNumber(f.capMax).IsInteger() then CapacityNotInteger
    else if f.maxEvaps != [] && !toNumber(f.maxEvaps).IsInteger() then MaxEvapsNotInteger
    else if Trim(f.combinacoes) == [] || !parsesJson(f.combinacoes) then InvalidJson
    else MultiAccepted
  }

  /** The saved record; `combinacoes` is the text that `JSON.parse` read. */
  datatype MultiPayload = MultiPayload(fabricante: string, tipo: string, nome: string, modelo: string,
                                       capNominal: int, capMax: int, maxEvaps: Option<int>, combinacoes: string)

  /** The multi-split `save` payload: integer capacities, an empty maximum saved as `null`. */
  function SaveMulti(f: MultiForm, toNumber: string -> JsNumber, parsesJson: string -> bool): (r: Option<MultiPayload>)
    ensures r.Some? <==> ValidateMulti(f, toNumber, parsesJson) == MultiAccepted
    ensures r.Some? ==> (r.value.fabricante == Trim(f.fabricante) && r.value.tipo == Trim(f.tipo)
                         && r.value.nome == Trim(f.nome) && r.value.modelo == Trim(f.modelo))
    ensures r.Some? ==> (toNumber(f.capNominal) == Finite(r.value.capNominal as real)
                         && toNumber(f.capMax) == Finite(r.value.capMax as real))
    ensures r.Some? ==> (r.value.maxEvaps.None? <==> f.maxEvaps == [])
    ensures r.Some? && r.value.maxEvaps.Some? ==> toNumber(f.maxEvaps) == Finite(r.value.maxEvaps.value as real)
    ensures r.Some? ==> parsesJson(r.value.combinacoes) && r.value.combinacoes == f.combinacoes
  {
    if ValidateMulti(f, toNumber, parsesJson) != MultiAccepted then None
    else
      Some(MultiPayload(Trim(f.fabricante), Trim(f.tipo), Trim(f.nome), Trim(f.modelo),
                        toNumber(f.capNominal).r.Floor, toNumber(f.capMax).r.Floor,
                        if f.maxEvaps != [] then Some(toNumber(f.maxEvaps).r.Floor) else None,
                        f.combinacoes))
  }

  // ---------------------------------------------------------------------------
  // Pagination
  // ---------------------------------------------------------------------------

  /** The page sizes offered. */
  const PageSizes: seq<int> := [20, 50, 100]

  /** `start = (page - 1) * pageSize`, `end = start + pageSize - 1` (inclusive). */
  function PageRange(page: int, pageSize: int): (r: (int, int))
    ensures r.1 - r.0 + 1 == pageSize
  {
    var start := (page - 1) * pageSize;
    (start, start + pageSize - 1)
  }

  /** Consecutive pages are contiguous, and with a positive size every row is on exactly one page. */
  lemma PageRangePartitions(page: int, pageSize: int, k: nat)
    requires pageSize > 0 && page >= 1
    ensures PageRange(page + 1, pageSize).0 == PageRange(page, pageSize).1 + 1
    ensures PageRange(page, pageSize).0 <= k <= PageRange(page, pageSize).1 <==> page == k / pageSize + 1
  {
    var q := k / pageSize + 1;
    var start := (page - 1) * pageSize;
    assert (page + 1 - 1) * pageSize == start + pageSize;
    assert k == (q - 1) * pageSize + k % pageSize;
    assert q * pageSize == (q - 1) * pageSize + pageSize;
    if page < q {
      MultiplyMonotone(page, q - 1, pageSize);
      assert page * pageSize == start + pageSize;
    } else if page > q {
      MultiplyMonotone(q, page - 1, pageSize);
    }
  }

  lemma MultiplyMonotone(a: int, b: int, c: int)
    requires a <= b && c > 0
    ensures a * c <= b * c
  {
    assert b * c - a * c == (b - a) * c;
  }

  /** The page counter and page size of one product list. */
  class Pager {
    var page: int
    var pageSize: int

    ghost predicate Valid()
      reads this
    {
      page >= 1 && pageSize in PageSizes
    }

    constructor ()
      ensures Valid() && page == 1 && pageSize == 20
    {
      page := 1;
      pageSize := 20;
    }

    /** The rows the current page asks for: `pageSize` of them, never before the first row. */
    function Range(): (r: (int, int))
      reads this
      ensures r.1 - r.0 + 1 == pageSize
      ensures Valid() ==> r.0 >= 0
    {
      PageRange(page, pageSize)
    }

    /** "Anterior": one page back, never below the first. */
    method Previous()
      requires Valid()
      modifies this
      ensures Valid()
      ensures page == if old(page) > 1 then old(page) - 1 else 1
      ensures pageSize == old(pageSize)
    {
      page := if page - 1 > 1 then page - 1 else 1;
    }

    /** "Próxima": one page forward. */
    method Next()
      requires Valid()
      modifies this
      ensures Valid()
      ensures page == old(page) + 1 && pageSize == old(pageSize)
    {
      page := page + 1;
    }

    /** "Itens por página": the new size, back on the first page. */
    method SetPageSize(size: int)
      requires Valid() && size in PageSizes
      modifies this
      ensures Valid()
      ensures page == 1 && pageSize == size
    {
      pageSize := size;
      page := 1;
    }
  }
}
