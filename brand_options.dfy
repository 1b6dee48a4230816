/**
 * The manufacturer selector (`BrandSelector`): the option list built from the
 * manufacturer names of the multi-split products, and the selection it keeps.
 *
 * `localeCompare(a, b, 'pt-BR', {sensitivity: 'base'}) <= 0` is the parameter `leq`.
 */
module BrandOptions {
  import opened Wrappers
  import opened Text
  import opened Collections

  /** One entry of the selector: what is shown and the value reported. */
  datatype BrandOption = BrandOption(caption: string, value: string)

  /** The entry for every manufacturer, always first. */
  const AllBrands: BrandOption := BrandOption("Todas as marcas", "todas")

  /** The outcome of the query: an error, or `data` (maybe `null`) with each row's `fabricante`. */
  datatype Response = Failed | Rows(data: Option<seq<Option<string>>>)

  /** `(r.fabricante || '').toString().trim()` for every row. */
  function Trimmed(rows: seq<Option<string>>): (r: seq<string>)
    ensures |r| == |rows|
    ensures forall i :: 0 <= i < |rows| ==> r[i] == Trim(rows[i].GetOr(""))
  {
    seq(|rows|, i requires 0 <= i < |rows| => Trim(rows[i].GetOr("")))
  }

  /** `.filter(f => f.length > 0)` */
  function NonEmpty(s: seq<string>): (r: seq<string>)
    ensures forall x :: x in r <==> x in s && x != []
  {
    if s == [] then []
    else
      assert s == [s[0]] + s[1..];
      if s[0] != [] then [s[0]] + NonEmpty(s[1..]) else NonEmpty(s[1..])
  }

  /** The manufacturer names: trimmed, non-empty, in row order. */
  function Names(rows: seq<Option<string>>): (r: seq<string>)
    ensures forall x :: x in r ==> x != []
  {
    NonEmpty(Trimmed(rows))
  }

  /** Every name is non-empty and has no surrounding white space. */
  lemma NamesAreTrimmed(rows: seq<Option<string>>)
    ensures forall x :: x in Names(rows) ==> x != [] && Trim(x) == x
    ensures forall x :: x in Names(rows) <==> x != [] && exists i :: 0 <= i < |rows| && Trim(rows[i].GetOr("")) == x
  {
    var t := Trimmed(rows);
    forall x | x in Names(rows) ensures Trim(x) == x {
      var i :| 0 <= i < |t| && t[i] == x;
      TrimIdempotent(rows[i].GetOr(""));
    }
  }

  function ToOptions(names: seq<string>): (r: seq<BrandOption>)
    ensures |r| == |names|
    ensures forall i :: 0 <= i < |names| ==> r[i] == BrandOption(names[i], ToLower(names[i]))
  {
    seq(|names|, i requires 0 <= i < |names| => BrandOption(names[i], ToLower(names[i])))
  }

  /** The all-brands entry followed by one entry per name. */
  function WithAllBrands(names: seq<string>): (r: seq<BrandOption>)
    ensures |r| == 1 + |names| && r[0] == AllBrands
    ensures forall i :: 0 <= i < |names| ==> r[i + 1] == BrandOption(names[i], ToLower(names[i]))
  {
    [AllBrands] + ToOptions(names)
  }

  /** The option list after the load. */
  function LoadedOptions(resp: Response, leq: (string, string) -> bool): (r: seq<BrandOption>)
    ensures |r| >= 1 && r[0] == AllBrands
    ensures resp.Failed? ==> |r| == 1
  {
    match resp
    case Failed => [AllBrands]
    case Rows(data) => WithAllBrands(SortedNames(data.GetOr([]), leq))
  }

  /** On an error the list is only the all-brands entry. */
  lemma FailedLoadOffersAllBrands(leq: (string, string) -> bool)
    ensures LoadedOptions(Failed, leq) == [AllBrands]
  {
  }

  /** The names after de-duplication and sorting, i.e. the labels after the first entry. */
  function SortedNames(rows: seq<Option<string>>, leq: (string, string) -> bool): (r: seq<string>)
    ensures multiset(r) == multiset(Dedupe(Names(rows)))
  {
    Sort(Dedupe(Names(rows)), leq)
  }

  /** After a successful load the all-brands entry comes first, then one entry per sorted name. */
  lemma LoadedOptionsShape(rows: seq<Option<string>>, leq: (string, string) -> bool)
    ensures var r := LoadedOptions(Rows(Some(rows)), leq);
      var names := SortedNames(rows, leq);
      && |r| == 1 + |names| && r[0] == AllBrands
      && (forall i :: 0 <= i < |names| ==> r[i + 1] == BrandOption(names[i], ToLower(names[i])))
  {
  }

  /**
   * The labels are the names, each exactly once, in comparator order, so the
   * list has one entry more than there are distinct names.
   */
  lemma SortedNamesSpec(rows: seq<Option<string>>, leq: (string, string) -> bool)
    ensures var names := SortedNames(rows, leq);
      && Distinct(names)
      && |names| == |set x | x in Names(rows)|
      && (forall x :: x in names <==> x in Names(rows))
      && (TotalPreorder(leq) ==> SortedBy(names, leq))
  {
    var n := Names(rows);
    var d := Dedupe(n);
    SortKeepsDistinct(d, leq);
    DedupeLength(n);
    assert forall x :: x in d <==> x in n;
    if TotalPreorder(leq) {
      SortSorted(d, leq);
    }
  }

  /** A missing `data` gives the same list as no rows. */
  lemma NullDataIsEmpty(leq: (string, string) -> bool)
    ensures LoadedOptions(Rows(None), leq) == [AllBrands]
  {
  }

  /**
   * Names are de-duplicated by exact match only: two names that differ only in
   * case (say "LG" and "lg") give two entries that report the same value.
   */
  lemma CaseVariantsShareValue(rows: seq<Option<string>>, leq: (string, string) -> bool, a: string, b: string)
    requires a in Names(rows) && b in Names(rows) && a != b && ToLower(a) == ToLower(b)
    ensures var r := LoadedOptions(Rows(Some(rows)), leq);
      exists i, j :: 1 <= i < |r| && 1 <= j < |r| && r[i].caption == a && r[j].caption == b && r[i].value == r[j].value
  {
    var r := LoadedOptions(Rows(Some(rows)), leq);
    var names := SortedNames(rows, leq);
    SortedNamesSpec(rows, leq);
    LoadedOptionsShape(rows, leq);
    var i :| 0 <= i < |names| && names[i] == a;
    var j :| 0 <= j < |names| && names[j] == b;
    assert r[i + 1] == BrandOption(a, ToLower(a));
    assert r[j + 1] == BrandOption(b, ToLower(b));
    assert 1 <= i + 1 < |r| && 1 <= j + 1 < |r|;
  }

  /** What the selector does on a change: the value it shows and the value it reports. */
  datatype Selection = Selection(selected: string, reported: Option<string>)

  /** A new `value` prop is shown as it is, and nothing is reported. */
  function FollowProp(value: string): (r: Selection)
    ensures r.selected == value && r.reported == None
  {
    Selection(value, None)
  }

  /** `handleChange(val)`: shown and reported unchanged. */
  function Choose(val: string): (r: Selection)
    ensures r.selected == val && r.reported == Some(val)
  {
    Selection(val, Some(val))
  }

  /** When the parent passes the reported value back, the selection does not move. */
  lemma ChoiceRoundTrip(val: string)
    ensures FollowProp(Choose(val).reported.value).selected == Choose(val).selected
  {
  }
}
