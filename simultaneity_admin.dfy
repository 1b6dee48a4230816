/**
 * The simultaneity administration tab (`SimultaneidadeTab`): which table each
 * family lives in, the rows each page fetches, the form check before saving,
 * the saved record, and the sort-header and dialog state.
 *
 * `parseFloat` is the parameter `parseFloat`; `Number.prototype.toString` is `show`.
 */
module SimultaneityAdmin {
  import opened Wrappers
  import opened Text

  /** Multi-split or VRF simultaneity. */
  datatype Family = Multi | Vrf

  /** `getTableName` */
  function TableName(f: Family): (t: string)
    ensures f == Multi ==> t == "simultaneidade"
    ensures f == Vrf ==> t == "simultaneidade_vrf"
  {
    if f == Multi then "simultaneidade" else "simultaneidade_vrf"
  }

  /** The two families never share a table. */
  lemma TableNameInjective(f: Family, g: Family)
    ensures TableName(f) == TableName(g) <==> f == g
  {
    if f != g {
      assert |TableName(Multi)| != |TableName(Vrf)|;
    }
  }

  const ItemsPerPage: int := 25

  /** `(currentPage - 1) * itemsPerPage` */
  function Offset(page: int): int {
    (page - 1) * ItemsPerPage
  }

  /** The inclusive row range `[offset, offset + itemsPerPage - 1]` a page asks for. */
  function FetchRange(page: int): (r: (int, int))
    ensures r.1 - r.0 + 1 == ItemsPerPage
    ensures page >= 1 ==> r.0 >= 0
  {
    (Offset(page), Offset(page) + ItemsPerPage - 1)
  }

  /** Consecutive pages are contiguous, and a later page starts after an earlier page ends. */
  lemma PagesContiguousAndDisjoint(p: int, q: int)
    ensures FetchRange(p + 1).0 == FetchRange(p).1 + 1
    ensures p < q ==> FetchRange(p).1 < FetchRange(q).0
  {
  }

  /** Every row lies on exactly one page: row `k` (from 0) is on page `k / 25 + 1`. */
  lemma RowOnExactlyOnePage(k: nat, p: int)
    requires p >= 1
    ensures FetchRange(p).0 <= k <= FetchRange(p).1 <==> p == k / ItemsPerPage + 1
  {
    var q := k / ItemsPerPage + 1;
    assert Offset(q) <= k < Offset(q) + ItemsPerPage;
    if p < q {
      assert Offset(p) + ItemsPerPage <= Offset(q);
    } else if p > q {
      assert Offset(q) + ItemsPerPage <= Offset(p);
    }
  }

  /** The outcome of `validateForm`; the first failing check is reported. */
  datatype Verdict = Accepted | NameRequired | NotANumber | NotPositive

  /** `valor <= 0` on a parsed number that is not `NaN`. */
  predicate AtMostZero(n: JsNumber) {
    n.NegInfinity? || (n.Finite? && n.r <= 0.0)
  }

  /** `validateForm` on the name and value fields of the form. */
  function ValidateForm(nome: string, valor: string, family: Family, parseFloat: string -> JsNumber): (v: Verdict)
    ensures v == NameRequired <==> Trim(nome) == []
    ensures v == NotANumber <==> Trim(nome) != [] && parseFloat(valor).NaN?
    ensures v == NotPositive ==> family == Vrf
  {
    if Trim(nome) == [] then NameRequired
    else if parseFloat(valor).NaN? then NotANumber
    else if family == Vrf && AtMostZero(parseFloat(valor)) then NotPositive
    else Accepted
  }

  /**
   * The form is accepted iff the trimmed name is non-empty, the value parses,
   * and, for VRF only, the value is above zero.
   */
  lemma ValidateFormAccepts(nome: string, valor: string, family: Family, parseFloat: string -> JsNumber)
    ensures ValidateForm(nome, valor, family, parseFloat) == Accepted <==>
      && !IsBlank(nome)
      && !parseFloat(valor).NaN?
      && (family == Vrf ==> parseFloat(valor) == PosInfinity || (parseFloat(valor).Finite? && parseFloat(valor).r > 0.0))
  {
    TrimEmptyIffBlank(nome);
  }

  /** Multi-split accepts zero and negative values that VRF refuses. */
  lemma MultiAcceptsNonPositive(nome: string, valor: string, parseFloat: string -> JsNumber)
    requires !IsBlank(nome) && parseFloat(valor).Finite? && parseFloat(valor).r <= 0.0
    ensures ValidateForm(nome, valor, Multi, parseFloat) == Accepted
    ensures ValidateForm(nome, valor, Vrf, parseFloat) == NotPositive
  {
    TrimEmptyIffBlank(nome);
  }

  /** One stored row. */
  datatype Item = Item(id: int, nome: string, valor: real)

  /** What `handleSubmit` writes: the table, the record, and the row it updates (`None` inserts). */
  datatype Save = Save(table: string, nome: string, valor: JsNumber, updates: Option<int>)

  /** `handleSubmit` up to the database call: nothing is written when the form is refused. */
  function SubmitPayload(nome: string, valor: string, family: Family, editing: Option<Item>,
                         parseFloat: string -> JsNumber): (r: Option<Save>)
    ensures r.Some? <==> ValidateForm(nome, valor, family, parseFloat) == Accepted
    ensures r.Some? ==> r.value.table == TableName(family)
    ensures r.Some? ==> r.value.valor == parseFloat(valor) && !r.value.valor.NaN?
    ensures r.Some? ==> r.value.nome == Trim(nome) && r.value.nome != []
    ensures r.Some? ==> (r.value.updates.Some? <==> editing.Some?)
    ensures r.Some? && editing.Some? ==> r.value.updates == Some(editing.value.id)
  {
    if ValidateForm(nome, valor, family, parseFloat) != Accepted then None
    else
      Some(Save(TableName(family), Trim(nome), parseFloat(valor),
                if editing.Some? then Some(editing.value.id) else None))
  }

  /** The saved name has no surrounding white space: saving it again stores the same name. */
  lemma SavedNameIsTrimmed(nome: string, valor: string, family: Family, editing: Option<Item>,
                           parseFloat: string -> JsNumber)
    requires SubmitPayload(nome, valor, family, editing, parseFloat).Some?
    ensures var n := SubmitPayload(nome, valor, family, editing, parseFloat).value.nome;
      Trim(n) == n && SubmitPayload(n, valor, family, editing, parseFloat).value.nome == n
  {
    TrimIdempotent(nome);
  }

  datatype SortColumn = ByName | ByValue
  datatype SortDir = Asc | Desc

  /** The three clickable headers: "Código", "Nome" and "Valor". */
  datatype Header = Code | Name | Value

  function ColumnOf(h: Header): SortColumn {
    if h == Value then ByValue else ByName
  }

  function Flip(d: SortDir): SortDir {
    if d == Asc then Desc else Asc
  }

  /** A header click: the current column flips its direction, another column is selected ascending. */
  function Clicked(sortBy: SortColumn, sortDir: SortDir, h: Header): (r: (SortColumn, SortDir))
    ensures r.0 == ColumnOf(h)
    ensures sortBy == ColumnOf(h) ==> r.1 != sortDir
    ensures sortBy != ColumnOf(h) ==> r.1 == Asc
  {
    if sortBy == ColumnOf(h) then (sortBy, Flip(sortDir)) else (ColumnOf(h), Asc)
  }

  /** "Código" sorts by name, exactly as "Nome" does. */
  lemma CodeActsAsName(sortBy: SortColumn, sortDir: SortDir)
    ensures Clicked(sortBy, sortDir, Code) == Clicked(sortBy, sortDir, Name)
  {
  }

  /** Two clicks on the current column restore the order; two on another leave it descending. */
  lemma DoubleClick(sortBy: SortColumn, sortDir: SortDir, h: Header)
    ensures var once := Clicked(sortBy, sortDir, h);
      var twice := Clicked(once.0, once.1, h);
      twice == if sortBy == ColumnOf(h) then (sortBy, sortDir) else (ColumnOf(h), Desc)
  {
  }

  /** The tab's state fields. */
  class AdminState {
    var currentPage: int
    var sortBy: SortColumn
    var sortDir: SortDir
    var selectedType: Family
    var dialogOpen: bool
    var typeDialogOpen: bool
    var editing: Option<Item>
    var formName: string
    var formValue: string

    constructor ()
      ensures currentPage == 1 && sortBy == ByName && sortDir == Asc && selectedType == Multi
      ensures !dialogOpen && !typeDialogOpen && editing == None && formName == "" && formValue == ""
    {
      currentPage := 1;
      sortBy := ByName;
      sortDir := Asc;
      selectedType := Multi;
      dialogOpen := false;
      typeDialogOpen := false;
      editing := None;
      formName := "";
      formValue := "";
    }

    /** The rows the current page asks for: 25 of them, from a row that exists on pages from 1 on. */
    function Range(): (r: (int, int))
      reads this
      ensures r.1 - r.0 + 1 == ItemsPerPage
      ensures currentPage >= 1 ==> r.0 >= 0
    {
      FetchRange(currentPage)
    }

    method ClickHeader(h: Header)
      modifies this
      ensures (sortBy, sortDir) == Clicked(old(sortBy), old(sortDir), h)
      ensures currentPage == old(currentPage) && selectedType == old(selectedType)
      ensures dialogOpen == old(dialogOpen) && typeDialogOpen == old(typeDialogOpen)
      ensures editing == old(editing) && formName == old(formName) && formValue == old(formValue)
    {
      if sortBy == ColumnOf(h) {
        sortDir := Flip(sortDir);
      } else {
        sortBy := ColumnOf(h);
        sortDir := Asc;
      }
    }

    /** `resetForm`: both fields emptied and no row being edited. */
    method ResetForm()
      modifies this
      ensures formName == "" && formValue == "" && editing == None
      ensures currentPage == old(currentPage) && sortBy == old(sortBy) && sortDir == old(sortDir)
      ensures selectedType == old(selectedType) && dialogOpen == old(dialogOpen) && typeDialogOpen == old(typeDialogOpen)
    {
      formName := "";
      formValue := "";
      editing := None;
    }

    /** `openNewItemDialog(t)`: the family chosen, the type dialog closed, a fresh form open. */
    method OpenNewItemDialog(t: Family)
      modifies this
      ensures selectedType == t && !typeDialogOpen && dialogOpen
      ensures formName == "" && formValue == "" && editing == None
      ensures currentPage == old(currentPage) && sortBy == old(sortBy) && sortDir == old(sortDir)
    {
      selectedType := t;
      typeDialogOpen := false;
      ResetForm();
      dialogOpen := true;
    }

    /** `handleEdit(item)`: the form filled from the row, which becomes the one being edited. */
    method Edit(item: Item, show: real -> string)
      modifies this
      ensures editing == Some(item) && formName == item.nome && formValue == show(item.valor) && dialogOpen
      ensures currentPage == old(currentPage) && sortBy == old(sortBy) && sortDir == old(sortDir)
      ensures selectedType == old(selectedType) && typeDialogOpen == old(typeDialogOpen)
    {
      editing := Some(item);
      formName := item.nome;
      formValue := show(item.valor);
      dialogOpen := true;
    }

    /** The family toggle; deselecting (an empty value) changes nothing. */
    method SelectType(v: Option<Family>)
      modifies this
      ensures selectedType == if v.Some? then v.value else old(selectedType)
      ensures currentPage == old(currentPage) && sortBy == old(sortBy) && sortDir == old(sortDir)
      ensures dialogOpen == old(dialogOpen) && typeDialogOpen == old(typeDialogOpen)
      ensures editing == old(editing) && formName == old(formName) && formValue == old(formValue)
    {
      if v.Some? {
        selectedType := v.value;
      }
    }

    /** After a successful save: the dialog closes and the form is reset. */
    method Saved()
      modifies this
      ensures !dialogOpen && formName == "" && formValue == "" && editing == None
      ensures currentPage == old(currentPage) && sortBy == old(sortBy) && sortDir == old(sortDir)
      ensures selectedType == old(selectedType) && typeDialogOpen == old(typeDialogOpen)
    {
      dialogOpen := false;
      ResetForm();
    }
  }
}
