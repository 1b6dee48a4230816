/**
 * The VRF condensing-unit calculator (`VRFCondensadoraCalculator`): the list of
 * chosen evaporators, the simultaneity (diversity) factor form, the demand
 * aggregation that feeds the condenser search, and the advisories shown beside
 * the result.
 *
 * The condenser search `calcularCondensadoraVRF` is a parameter `search` whose
 * behaviour is not modelled; the evaporator catalog `evaporadoras` is a
 * `Catalog` value whose contents are not modelled.
 */
module VrfCalculator {
  import opened Wrappers
  import opened Text

  datatype Brand = Samsung | Daikin
  datatype Orientation = Vertical | Horizontal

  // ---------------------------------------------------------------------------
  // The evaporator catalog and its lookup (`getEvaporadorasMap`)
  // ---------------------------------------------------------------------------

  /** One catalog model: a nominal rating and the real capacity it delivers. */
  datatype Model = Model(nominal: int, capacity: real)

  /** The models listed under one evaporator type label ("Hi Wall", ...). */
  datatype TypeModels = TypeModels(tipo: string, modelos: seq<Model>)

  /** The evaporator catalog of both brands. */
  datatype Catalog = Catalog(samsung: seq<TypeModels>, daikin: seq<TypeModels>) {
    function Of(b: Brand): seq<TypeModels> {
      if b == Samsung then samsung else daikin
    }
  }

  /** The catalog label behind each type key of the evaporator picker. */
  function TypeLabel(kind: string): Option<string> {
    if kind == "hi-wall" then Some("Hi Wall")
    else if kind == "cassete-1-via" then Some("Cassete 1 Via")
    else if kind == "cassete-4-vias" then Some("Cassete 4 Vias")
    else if kind == "duto" then Some("Duto")
    else if kind == "piso-teto" then Some("Piso Teto")
    else None
  }

  /** `cat.find(e => e.tipo === t)?.modelos || []`: the models of the first matching type. */
  function FindModels(cat: seq<TypeModels>, t: string): (r: seq<Model>)
    ensures forall i :: 0 <= i < |cat| && cat[i].tipo == t && (forall j :: 0 <= j < i ==> cat[j].tipo != t)
              ==> r == cat[i].modelos
    ensures (forall i :: 0 <= i < |cat| ==> cat[i].tipo != t) ==> r == []
  {
    if cat == [] then []
    else if cat[0].tipo == t then cat[0].modelos
    else
      assert forall i :: 1 <= i < |cat| ==> cat[1..][i - 1] == cat[i];
      FindModels(cat[1..], t)
  }

  /** `Object.fromEntries(arr.map(m => [m.nominal, m.capacity]))`: later models overwrite earlier ones. */
  function ToMap(arr: seq<Model>): map<int, real> {
    if arr == [] then map[]
    else
      var n := |arr| - 1;
      ToMap(arr[..n])[arr[n].nominal := arr[n].capacity]
  }

  /** A nominal is a key iff some model has it, and a repeated nominal keeps its last model's value. */
  lemma {:induction false} ToMapKeepsLast(arr: seq<Model>)
    ensures forall n :: n in ToMap(arr) <==> exists k :: 0 <= k < |arr| && arr[k].nominal == n
    ensures forall k :: 0 <= k < |arr| && (forall l :: k < l < |arr| ==> arr[l].nominal != arr[k].nominal)
              ==> arr[k].nominal in ToMap(arr) && ToMap(arr)[arr[k].nominal] == arr[k].capacity
  {
    if arr != [] {
      var n := |arr| - 1;
      var p := arr[..n];
      ToMapKeepsLast(p);
      assert forall k :: 0 <= k < n ==> p[k] == arr[k];
      forall m ensures m in ToMap(arr) <==> exists k :: 0 <= k < |arr| && arr[k].nominal == m {
        if m in ToMap(p) {
          var k :| 0 <= k < |p| && p[k].nominal == m;
          assert arr[k].nominal == m;
        }
      }
    }
  }

  /** `getEvaporadorasMap(brand)[kind]?.[nominal]`; `None` is `undefined`. */
  function Lookup(catalog: Catalog, brand: Brand, kind: string, nominal: int): (r: Option<real>)
    ensures r.None? <==> (TypeLabel(kind).None?
      || forall m :: m in FindModels(catalog.Of(brand), TypeLabel(kind).value) ==> m.nominal != nominal)
  {
    match TypeLabel(kind)
    case None => None
    case Some(tipo) =>
      var models := FindModels(catalog.Of(brand), tipo);
      ToMapKeepsLast(models);
      var m := ToMap(models);
      if nominal in m then Some(m[nominal]) else None
  }

  /**
   * The lookup finds a capacity exactly when the picker key names a catalog
   * type, and then it is the real capacity of the LAST model with that nominal
   * in the FIRST type entry with that label.
   */
  lemma LookupFindsLastModel(catalog: Catalog, brand: Brand, kind: string, nominal: int, i: nat, k: nat)
    requires TypeLabel(kind).Some?
    requires var cat := catalog.Of(brand);
      && i < |cat| && cat[i].tipo == TypeLabel(kind).value
      && (forall j :: 0 <= j < i ==> cat[j].tipo != TypeLabel(kind).value)
      && k < |cat[i].modelos| && cat[i].modelos[k].nominal == nominal
      && (forall l :: k < l < |cat[i].modelos| ==> cat[i].modelos[l].nominal != nominal)
    ensures Lookup(catalog, brand, kind, nominal) == Some(catalog.Of(brand)[i].modelos[k].capacity)
  {
    ToMapKeepsLast(catalog.Of(brand)[i].modelos);
  }

  /** A key outside the five picker types, or a type the catalog lacks, finds nothing. */
  lemma LookupMisses(catalog: Catalog, brand: Brand, kind: string, nominal: int)
    requires TypeLabel(kind).None?
      || (forall i :: 0 <= i < |catalog.Of(brand)| ==> catalog.Of(brand)[i].tipo != TypeLabel(kind).value)
    ensures Lookup(catalog, brand, kind, nominal) == None
  {
  }

  /** JavaScript `x || d` on a number that may be missing: a missing value or 0 gives `d`. */
  function OrElse(x: Option<real>, d: real): real {
    if x.Some? && x.value != 0.0 then x.value else d
  }

  function OrElseInt(x: Option<int>, d: int): int {
    if x.Some? && x.value != 0 then x.value else d
  }

  const NominalDefault: int := 7
  const QuantityDefault: int := 1
  /** The real capacity used when the catalog has none for a new entry. */
  const FallbackRealBtu: real := 7507.0

  // ---------------------------------------------------------------------------
  // The evaporator list
  // ---------------------------------------------------------------------------

  /** One line of the evaporator list: `{type, nominal, realBTU, qtd}`. */
  datatype Evaporator = Evaporator(kind: string, nominal: int, realBtu: real, qtd: int)

  predicate SameKey(e: Evaporator, kind: string, nominal: int) {
    e.kind == kind && e.nominal == nominal
  }

  /** No two lines share a `(type, nominal)` pair. */
  predicate KeysUnique(s: seq<Evaporator>) {
    forall i, j :: 0 <= i < j < |s| ==> s[i].kind != s[j].kind || s[i].nominal != s[j].nominal
  }

  predicate QuantitiesPositive(s: seq<Evaporator>) {
    forall i :: 0 <= i < |s| ==> s[i].qtd >= 1
  }

  predicate HasKey(s: seq<Evaporator>, kind: string, nominal: int) {
    exists i :: 0 <= i < |s| && SameKey(s[i], kind, nominal)
  }

  /** The list after `handleAdd`'s updater: merge into the line with the same key, or append. */
  function Added(s: seq<Evaporator>, kind: string, nominal: int, realBtu: real, qtd: int): (r: seq<Evaporator>)
    ensures HasKey(r, kind, nominal)
    ensures |r| == if HasKey(s, kind, nominal) then |s| else |s| + 1
  {
    if HasKey(s, kind, nominal) then
      var r := seq(|s|, i requires 0 <= i < |s| =>
        if SameKey(s[i], kind, nominal) then s[i].(qtd := s[i].qtd + qtd) else s[i]);
      assert forall i :: 0 <= i < |s| ==> SameKey(r[i], kind, nominal) == SameKey(s[i], kind, nominal);
      r
    else
      var r := s + [Evaporator(kind, nominal, realBtu, qtd)];
      assert SameKey(r[|s|], kind, nominal);
      r
  }

  /**
   * Adding an existing key raises only that line's quantity, and keeps its
   * stored real capacity (the freshly looked-up one is ignored).
   */
  lemma AddMergesIntoExisting(s: seq<Evaporator>, kind: string, nominal: int, realBtu: real, qtd: int, i: nat)
    requires KeysUnique(s) && i < |s| && SameKey(s[i], kind, nominal)
    ensures Added(s, kind, nominal, realBtu, qtd) == s[i := s[i].(qtd := s[i].qtd + qtd)]
  {
    var r := Added(s, kind, nominal, realBtu, qtd);
    forall j | 0 <= j < |s| && j != i ensures !SameKey(s[j], kind, nominal) {
      if j < i { assert s[j].kind != s[i].kind || s[j].nominal != s[i].nominal; }
      else { assert s[i].kind != s[j].kind || s[i].nominal != s[j].nominal; }
    }
  }

  /**
   * Adding keeps the keys unique (and the quantities positive when a positive
   * quantity is added), contains the added key afterwards, and grows the list
   * by at most one line.
   */
  lemma AddKeepsInvariants(s: seq<Evaporator>, kind: string, nominal: int, realBtu: real, qtd: int)
    requires KeysUnique(s)
    ensures var r := Added(s, kind, nominal, realBtu, qtd);
      && KeysUnique(r)
      && (QuantitiesPositive(s) && qtd >= 1 ==> QuantitiesPositive(r))
      && HasKey(r, kind, nominal)
      && |s| <= |r| <= |s| + 1
      && (|r| == |s| + 1 <==> !HasKey(s, kind, nominal))
  {
    var r := Added(s, kind, nominal, realBtu, qtd);
    if HasKey(s, kind, nominal) {
      var i :| 0 <= i < |s| && SameKey(s[i], kind, nominal);
      assert SameKey(r[i], kind, nominal);
    } else {
      assert SameKey(r[|s|], kind, nominal);
      forall i, j | 0 <= i < j < |r| ensures r[i].kind != r[j].kind || r[i].nominal != r[j].nominal {
        if j == |s| { assert !SameKey(s[i], kind, nominal); }
      }
    }
  }

  /** The list after `handleRemove(index)`: `prev.filter((_, i) => i !== index)`. */
  function RemoveAt(s: seq<Evaporator>, index: int): (r: seq<Evaporator>)
    ensures 0 <= index < |s| ==> |r| == |s| - 1
    ensures 0 <= index < |s| ==> forall j :: 0 <= j < index ==> r[j] == s[j]
    ensures 0 <= index < |s| ==> forall j :: index <= j < |r| ==> r[j] == s[j + 1]
    ensures !(0 <= index < |s|) ==> r == s
  {
    if 0 <= index < |s| then s[..index] + s[index + 1..] else s
  }

  /** Removing a line keeps the keys unique and the quantities positive. */
  lemma RemoveKeepsInvariants(s: seq<Evaporator>, index: int)
    ensures KeysUnique(s) ==> KeysUnique(RemoveAt(s, index))
    ensures QuantitiesPositive(s) ==> QuantitiesPositive(RemoveAt(s, index))
  {
    var r := RemoveAt(s, index);
    if 0 <= index < |s| {
      // position in s of the j-th line of r
      var at := (j: int) => if j < index then j else j + 1;
      assert forall j :: 0 <= j < |r| ==> r[j] == s[at(j)];
      if KeysUnique(s) {
        forall a, b | 0 <= a < b < |r| ensures r[a].kind != r[b].kind || r[a].nominal != r[b].nominal {
          assert at(a) < at(b) < |s|;
        }
      }
    }
  }

  /** `Math.max(1, Math.floor(value || 1))`; `value` is `parseInt` of the field, `None` for `NaN`. */
  function ClampQuantity(value: Option<real>): (q: int)
    ensures q >= 1
    ensures value.Some? && value.value >= 1.0 ==> q == value.value.Floor
    ensures value.None? || value.value < 2.0 ==> q == 1
  {
    var v := OrElse(value, 1.0);
    if v.Floor < 1 then 1 else v.Floor
  }

  /** The list after `handleChangeQtd(index, value)`: only line `index` gets the clamped quantity. */
  function WithQuantity(s: seq<Evaporator>, index: nat, value: Option<real>): (r: seq<Evaporator>)
    requires index < |s|
    ensures |r| == |s| && r[index].qtd == ClampQuantity(value)
    ensures r[index].kind == s[index].kind && r[index].nominal == s[index].nominal && r[index].realBtu == s[index].realBtu
    ensures forall j :: 0 <= j < |s| && j != index ==> r[j] == s[j]
  {
    s[index := s[index].(qtd := ClampQuantity(value))]
  }

  lemma ChangeQuantityKeepsInvariants(s: seq<Evaporator>, index: nat, value: Option<real>)
    requires index < |s|
    ensures KeysUnique(s) ==> KeysUnique(WithQuantity(s, index, value))
    ensures QuantitiesPositive(s) ==> QuantitiesPositive(WithQuantity(s, index, value))
  {
  }

  /** The brand-change effect: each line's real capacity re-read from the new brand, kept when missing or 0. */
  function Relookup(s: seq<Evaporator>, catalog: Catalog, brand: Brand): (r: seq<Evaporator>)
    ensures |r| == |s|
    ensures forall i :: 0 <= i < |s| && OrElse(Lookup(catalog, brand, s[i].kind, s[i].nominal), 0.0) != 0.0 ==>
      r[i].realBtu == Lookup(catalog, brand, s[i].kind, s[i].nominal).value
    ensures forall i :: 0 <= i < |s| && OrElse(Lookup(catalog, brand, s[i].kind, s[i].nominal), 0.0) == 0.0 ==>
      r[i].realBtu == s[i].realBtu
  {
    seq(|s|, i requires 0 <= i < |s| =>
      s[i].(realBtu := OrElse(Lookup(catalog, brand, s[i].kind, s[i].nominal), s[i].realBtu)))
  }

  /**
   * Re-looking up keeps the length, every line's type, nominal and quantity
   * (hence both invariants); a line the brand's catalog knows (with a non-zero
   * capacity) takes that capacity, and any other line stays as it was.
   */
  lemma RelookupKeepsLines(s: seq<Evaporator>, catalog: Catalog, brand: Brand)
    ensures var r := Relookup(s, catalog, brand);
      && |r| == |s|
      && (forall i :: 0 <= i < |s| ==> r[i].kind == s[i].kind && r[i].nominal == s[i].nominal && r[i].qtd == s[i].qtd)
      && (forall i :: 0 <= i < |s| && r[i].realBtu != s[i].realBtu ==>
            Lookup(catalog, brand, s[i].kind, s[i].nominal) == Some(r[i].realBtu))
      && (forall i :: 0 <= i < |s| && OrElse(Lookup(catalog, brand, s[i].kind, s[i].nominal), 0.0) != 0.0 ==>
            Some(r[i].realBtu) == Lookup(catalog, brand, s[i].kind, s[i].nominal))
      && (forall i :: 0 <= i < |s| && OrElse(Lookup(catalog, brand, s[i].kind, s[i].nominal), 0.0) == 0.0 ==>
            r[i] == s[i])
      && (KeysUnique(s) ==> KeysUnique(r))
      && (QuantitiesPositive(s) ==> QuantitiesPositive(r))
  {
  }

  /**
   * Switching to a brand whose catalog knows every line gives the same list
   * whatever brand was selected before: the capacities do not remember it.
   */
  lemma RelookupForgetsPreviousBrand(s: seq<Evaporator>, catalog: Catalog, before: Brand, brand: Brand)
    requires forall i :: 0 <= i < |s| ==> OrElse(Lookup(catalog, brand, s[i].kind, s[i].nominal), 0.0) != 0.0
    ensures Relookup(Relookup(s, catalog, before), catalog, brand) == Relookup(s, catalog, brand)
  {
    var t := Relookup(s, catalog, before);
    assert forall i :: 0 <= i < |s| ==> t[i].kind == s[i].kind && t[i].nominal == s[i].nominal;
  }

  /** Re-looking up twice with the same brand changes nothing more. */
  lemma RelookupIdempotent(s: seq<Evaporator>, catalog: Catalog, brand: Brand)
    ensures Relookup(Relookup(s, catalog, brand), catalog, brand) == Relookup(s, catalog, brand)
  {
    var t := Relookup(s, catalog, brand);
    assert forall i :: 0 <= i < |s| ==> t[i].kind == s[i].kind && t[i].nominal == s[i].nominal;
  }

  // ---------------------------------------------------------------------------
  // Demand aggregation
  // ---------------------------------------------------------------------------

  function Contribution(e: Evaporator): real {
    e.realBtu * e.qtd as real
  }

  /** `evaporators.reduce((acc, ev) => acc + ev.realBTU * ev.qtd, 0)` */
  function TotalDemand(s: seq<Evaporator>): real {
    if s == [] then 0.0 else Contribution(s[0]) + TotalDemand(s[1..])
  }

  /** With no negative capacity or quantity the demand is never negative. */
  lemma {:induction false} TotalDemandNonNegative(s: seq<Evaporator>)
    requires forall i :: 0 <= i < |s| ==> s[i].realBtu >= 0.0 && s[i].qtd >= 0
    ensures TotalDemand(s) >= 0.0
  {
    if s != [] {
      TotalDemandNonNegative(s[1..]);
      assert Contribution(s[0]) >= 0.0;
    }
  }

  lemma {:induction false} TotalDemandAppend(s: seq<Evaporator>, t: seq<Evaporator>)
    ensures TotalDemand(s + t) == TotalDemand(s) + TotalDemand(t)
  {
    if s == [] {
      assert s + t == t;
    } else {
      assert (s + t)[1..] == s[1..] + t;
      TotalDemandAppend(s[1..], t);
    }
  }

  /** Replacing one line changes the demand by the difference of the two lines' contributions. */
  lemma {:induction false} TotalDemandUpdate(s: seq<Evaporator>, i: nat, e: Evaporator)
    requires i < |s|
    ensures TotalDemand(s[i := e]) == TotalDemand(s) - Contribution(s[i]) + Contribution(e)
  {
    if i > 0 {
      assert s[i := e][1..] == s[1..][i - 1 := e];
      TotalDemandUpdate(s[1..], i - 1, e);
    }
  }

  /** Removing a line takes exactly its contribution off the demand. */
  lemma TotalDemandRemove(s: seq<Evaporator>, index: nat)
    requires index < |s|
    ensures TotalDemand(RemoveAt(s, index)) == TotalDemand(s) - Contribution(s[index])
  {
    var front, back := s[..index], s[index + 1..];
    var middle := [s[index]] + back;
    assert s == front + middle;
    assert RemoveAt(s, index) == front + back;
    assert middle[1..] == back;
    assert TotalDemand(middle) == Contribution(s[index]) + TotalDemand(back);
    TotalDemandAppend(front, middle);
    TotalDemandAppend(front, back);
  }

  /** Adding an existing key raises the demand by the added quantity times the line's stored capacity. */
  lemma AddDemandMerge(s: seq<Evaporator>, kind: string, nominal: int, realBtu: real, qtd: int, i: nat)
    requires KeysUnique(s) && i < |s| && SameKey(s[i], kind, nominal)
    ensures TotalDemand(Added(s, kind, nominal, realBtu, qtd)) == TotalDemand(s) + s[i].realBtu * qtd as real
  {
    AddMergesIntoExisting(s, kind, nominal, realBtu, qtd, i);
    DemandOfMore(s, i, qtd);
  }

  lemma DemandOfMore(s: seq<Evaporator>, i: nat, q: int)
    requires i < |s|
    ensures TotalDemand(s[i := s[i].(qtd := s[i].qtd + q)]) == TotalDemand(s) + s[i].realBtu * q as real
  {
    var e := s[i].(qtd := s[i].qtd + q);
    TotalDemandUpdate(s, i, e);
    ContributionOfMore(s[i], e, q);
  }

  lemma ContributionOfMore(e: Evaporator, f: Evaporator, q: int)
    requires f.realBtu == e.realBtu && f.qtd == e.qtd + q
    ensures Contribution(f) == Contribution(e) + e.realBtu * q as real
  {
    assert f.qtd as real == e.qtd as real + q as real;
    assert e.realBtu * (e.qtd as real + q as real) == e.realBtu * e.qtd as real + e.realBtu * q as real;
  }

  /** Adding a new key raises the demand by the added quantity times the looked-up capacity. */
  lemma AddDemandAppend(s: seq<Evaporator>, kind: string, nominal: int, realBtu: real, qtd: int)
    requires !HasKey(s, kind, nominal)
    ensures TotalDemand(Added(s, kind, nominal, realBtu, qtd)) == TotalDemand(s) + realBtu * qtd as real
  {
    var e := Evaporator(kind, nominal, realBtu, qtd);
    TotalDemandAppend(s, [e]);
    assert [e][1..] == [];
  }

  /** With positive capacities and quantities, the demand is 0 only for the empty list. */
  lemma {:induction false} TotalDemandPositive(s: seq<Evaporator>)
    requires QuantitiesPositive(s)
    requires forall i :: 0 <= i < |s| ==> s[i].realBtu > 0.0
    ensures s == [] <==> TotalDemand(s) == 0.0
    ensures TotalDemand(s) >= 0.0
  {
    if s != [] {
      TotalDemandPositive(s[1..]);
      assert s[0].qtd as real >= 1.0;
      assert Contribution(s[0]) >= s[0].realBtu;
    }
  }

  // ---------------------------------------------------------------------------
  // The simultaneity factor
  // ---------------------------------------------------------------------------

  /** One row of the simultaneity table: `{id, nome, valor}`. */
  datatype SimultOption = SimultOption(id: int, nome: string, valor: real)

  /** The factor form: the chosen row and its value (`None` is `null`). */
  datatype FactorForm = FactorForm(selected: Option<SimultOption>, value: Option<real>)

  const InitialForm: FactorForm := FactorForm(None, Some(110.0))

  /** The options used when neither simultaneity table could be read. */
  const StaticOptions: seq<SimultOption> :=
    [SimultOption(-1, "Corporativo", 110.0), SimultOption(-2, "Residencial", 145.0)]

  /**
   * The option list the load ends with. `main` is the `simultaneidade_vrf`
   * answer and `legacy` the `simultaneidade` one, each `None` on an error or
   * `null` data. The legacy rows are used only when the main query failed and
   * they are not empty; otherwise the two static rows.
   */
  function LoadedSimultOptions(main: Option<seq<SimultOption>>, legacy: Option<seq<SimultOption>>): (r: seq<SimultOption>)
    ensures main.Some? ==> r == main.value
    ensures main.None? && legacy.Some? && legacy.value != [] ==> r == legacy.value
    ensures main.None? && (legacy.None? || legacy.value == []) ==> r == StaticOptions
    ensures r == [] <==> main == Some([])
  {
    if main.Some? then main.value
    else if legacy.Some? && legacy.value != [] then legacy.value
    else StaticOptions
  }

  predicate IsCorporate(o: SimultOption) {
    StartsWith(ToLower(o.nome), "corporativo")
  }

  /**
   * The index of the row `corporativos.reduce((a, b) => a.valor >= b.valor ? a : b)`
   * picks: the highest-valued corporate row, the earliest of equal ones.
   */
  function BestCorporate(opts: seq<SimultOption>): (r: Option<nat>)
    ensures r.None? <==> forall k :: 0 <= k < |opts| ==> !IsCorporate(opts[k])
    ensures r.Some? ==> r.value < |opts| && IsCorporate(opts[r.value])
    ensures r.Some? ==> forall k :: 0 <= k < |opts| && IsCorporate(opts[k]) ==> opts[k].valor <= opts[r.value].valor
    ensures r.Some? ==> forall k :: 0 <= k < r.value && IsCorporate(opts[k]) ==> opts[k].valor < opts[r.value].valor
  {
    if opts == [] then None
    else
      var n := |opts| - 1;
      var prefix := opts[..n];
      var p := BestCorporate(prefix);
      assert opts == prefix + [opts[n]];
      if !IsCorporate(opts[n]) then p
      else if p.Some? && prefix[p.value].valor >= opts[n].valor then p
      else Some(n)
  }

  /** `applyDefaultSimult`'s choice: the best corporate row, else the first row. */
  function DefaultOption(opts: seq<SimultOption>): (r: Option<SimultOption>)
    ensures r.None? <==> opts == []
  {
    if opts == [] then None
    else match BestCorporate(opts)
      case Some(i) => Some(opts[i])
      case None => Some(opts[0])
  }

  /**
   * The default is a corporate row of the highest value, no earlier corporate
   * row has that value, and without corporate rows it is the first row.
   */
  lemma DefaultOptionIsBestCorporate(opts: seq<SimultOption>)
    requires opts != []
    ensures var d := DefaultOption(opts).value;
      if exists k :: 0 <= k < |opts| && IsCorporate(opts[k]) then
        && IsCorporate(d)
        && (exists i :: 0 <= i < |opts| && opts[i] == d
              && forall k :: 0 <= k < i && IsCorporate(opts[k]) ==> opts[k].valor < d.valor)
        && (forall k :: 0 <= k < |opts| && IsCorporate(opts[k]) ==> opts[k].valor <= d.valor)
      else
        d == opts[0]
  {
    var b := BestCorporate(opts);
    if b.Some? {
      assert opts[b.value] == DefaultOption(opts).value;
    }
  }

  /** `applyDefaultSimult(opts)`: an empty list leaves the form as it is. */
  function ApplyDefault(form: FactorForm, opts: seq<SimultOption>): (r: FactorForm)
    ensures opts == [] ==> r == form
    ensures opts != [] ==> r.selected == DefaultOption(opts) && r.value == Some(DefaultOption(opts).value.valor)
  {
    match DefaultOption(opts)
    case None => form
    case Some(d) => FactorForm(Some(d), Some(d.valor))
  }

  /** The fallback list defaults to "Corporativo" at 110. */
  lemma StaticDefaultIsCorporate()
    ensures ApplyDefault(InitialForm, StaticOptions) == FactorForm(Some(StaticOptions[0]), Some(110.0))
  {
    assert IsCorporate(StaticOptions[0]) by {
      assert ToLower("Corporativo") == "corporativo";
    }
    assert !IsCorporate(StaticOptions[1]) by {
      assert ToLower("Residencial")[..11] == "residencial";
    }
  }

  /** `simultOptions.find(o => String(o.id) === value)` */
  function FindOption(opts: seq<SimultOption>, id: int): (r: Option<SimultOption>)
    ensures r.Some? ==> exists i :: 0 <= i < |opts| && opts[i] == r.value && r.value.id == id
                           && forall j :: 0 <= j < i ==> opts[j].id != id
    ensures r.None? ==> forall i :: 0 <= i < |opts| ==> opts[i].id != id
  {
    if opts == [] then None
    else if opts[0].id == id then Some(opts[0])
    else
      var r := FindOption(opts[1..], id);
      assert forall i :: 1 <= i < |opts| ==> opts[1..][i - 1] == opts[i];
      r
  }

  /** `Math.round`: the nearest integer, halves rounded up. */
  function Round(x: real): (n: int)
    ensures n as real - 0.5 <= x < n as real + 0.5
  {
    (x + 0.5).Floor
  }

  /**
   * `getSimultPercent`: the factor as a whole percent. Values above 10 are
   * read as percents already, others as fractions (1.1 means 110%).
   */
  function Percent(v: Option<real>): (p: int)
    ensures v.None? ==> p == 110
    ensures v.Some? ==> p as real - 0.5 <= PercentScale(v.value) < p as real + 0.5
  {
    match v
    case None => 110
    case Some(x) => if x > 10.0 then Round(x) else Round(x * 100.0)
  }

  /** The percent a stored factor stands for, without rounding. */
  function PercentScale(x: real): real {
    if x > 10.0 then x else x * 100.0
  }

  /** A percent stored either way gives the same percent. */
  lemma PercentAgreesAcrossScales(p: int)
    requires 10 < p <= 1000
    ensures Percent(Some(p as real)) == p
    ensures Percent(Some(p as real / 100.0)) == p
  {
    assert (p as real / 100.0) * 100.0 == p as real;
  }

  /** `form.simultaneidadeValor || 110` */
  function RawFactor(v: Option<real>): (f: real)
    ensures f != 0.0
    ensures v.Some? && v.value != 0.0 ==> f == v.value
    ensures v.None? || v.value == 0.0 ==> f == 110.0
  {
    OrElse(v, 110.0)
  }

  /** The Daikin factor as the calculation computes it: capped at 130 when above 130. */
  function DaikinFactor(raw: real): (f: real)
    ensures f <= 130.0
    ensures raw <= 130.0 ==> f == raw
    ensures raw > 130.0 ==> f == 130.0
  {
    if raw > 130.0 then 130.0 else raw
  }

  /**
   * The Daikin factor capped at 130% on the scale the factor is stored in:
   * 130 for percents, 1.3 for fractions.
   */
  function DaikinFactorNormalised(raw: real): (f: real)
    ensures PercentScale(f) <= 130.0
    ensures PercentScale(raw) <= 130.0 ==> f == raw
    ensures PercentScale(raw) > 130.0 ==> PercentScale(f) == 130.0
    ensures 1.3 < raw <= 10.0 ==> f == 1.3
    ensures raw > 10.0 ==> f == DaikinFactor(raw)
  {
    if raw > 10.0 then DaikinFactor(raw)
    else if raw > 1.3 then 1.3
    else raw
  }

  /** The "Daikin limit is 130%, the calculations below use 130%" notice. */
  predicate DaikinCapNotice(brand: Brand, v: Option<real>) {
    brand == Daikin && Percent(v) > 130
  }

  /** The "145% is only valid for horizontal units" notice. */
  predicate InvalidCombinationNotice(v: Option<real>, orientation: Orientation) {
    Percent(v) == 145 && orientation == Vertical
  }

  /** The "capped at 130%" badge next to the selected factor. */
  predicate CappedBadge(brand: Brand, v: Option<real>) {
    brand == Daikin && v.Some? && v.value > 130.0
  }

  /** 145% is flagged on vertical units whether stored as 145 or 1.45. */
  lemma InvalidCombinationBothScales(o: Orientation)
    ensures InvalidCombinationNotice(Some(145.0), o) <==> o == Vertical
    ensures InvalidCombinationNotice(Some(1.45), o) <==> o == Vertical
  {
    PercentAgreesAcrossScales(145);
    assert 145 as real / 100.0 == 1.45;
  }

  /**
   * As written, a factor stored as a fraction escapes the Daikin cap: 1.45
   * raises the notice that the calculations use 130%, yet Daikin gets 1.45.
   */
  lemma DaikinCapMissedOnFractionScale()
    ensures DaikinCapNotice(Daikin, Some(1.45))
    ensures DaikinFactor(RawFactor(Some(1.45))) == 1.45
    ensures Percent(Some(DaikinFactor(RawFactor(Some(1.45))))) == 145
  {
    PercentAgreesAcrossScales(145);
    assert 145 as real / 100.0 == 1.45;
  }

  /**
   * With the normalised cap, whenever the Daikin notice is shown the factor the
   * calculation uses is exactly 130%, and without rounding it never exceeds 130%.
   */
  lemma DaikinNoticeMatchesCap(v: Option<real>)
    ensures DaikinCapNotice(Daikin, v) ==> PercentScale(DaikinFactorNormalised(RawFactor(v))) == 130.0
    ensures PercentScale(DaikinFactorNormalised(RawFactor(v))) <= 130.0
  {
    if DaikinCapNotice(Daikin, v) {
      var x := v.value;
      assert RawFactor(v) == x;
      assert PercentScale(x) >= 130.5;
    }
  }

  /** The "capped at 130%" badge appears only when Daikin is actually computed with 130. */
  lemma CappedBadgeMatchesCap(v: Option<real>)
    ensures CappedBadge(Daikin, v) ==> DaikinFactorNormalised(RawFactor(v)) == 130.0
    ensures !CappedBadge(Daikin, v) && RawFactor(v) > 10.0 ==> DaikinFactorNormalised(RawFactor(v)) == RawFactor(v)
  {
  }

  // ---------------------------------------------------------------------------
  // Recalculation
  // ---------------------------------------------------------------------------

  /** One brand's result: the search's result and the annotations added to it. */
  datatype BrandResult<E> = BrandResult(selection: E, orientation: Orientation, factorUsed: real, factorSelected: real)

  datatype Results<E> = Results(samsung: BrandResult<E>, daikin: BrandResult<E>)

  /**
   * `recalculate` with the Daikin factor computed by `cap` from the raw factor:
   * no result for zero demand; otherwise the search runs once per brand on
   * `[total]`, Samsung with the raw factor and Daikin with `cap(raw)`.
   */
  function RecalculateWith<E>(s: seq<Evaporator>, v: Option<real>, orientation: Orientation,
                              search: (seq<real>, real, Brand, Orientation) -> E, cap: real -> real): (r: Option<Results<E>>)
    ensures r.None? <==> TotalDemand(s) == 0.0
    ensures r.Some? ==>
      var raw := RawFactor(v);
      var sam := r.value.samsung;
      var dai := r.value.daikin;
      && sam.factorUsed == raw && sam.factorSelected == raw
      && dai.factorUsed == cap(raw) && dai.factorSelected == raw
      && sam.orientation == orientation && dai.orientation == orientation
      && sam.selection == search([TotalDemand(s)], raw, Samsung, orientation)
      && dai.selection == search([TotalDemand(s)], cap(raw), Daikin, orientation)
  {
    var total := TotalDemand(s);
    if total == 0.0 then None
    else
      var raw := RawFactor(v);
      var daikin := cap(raw);
      Some(Results(
        BrandResult(search([total], raw, Samsung, orientation), orientation, raw, raw),
        BrandResult(search([total], daikin, Daikin, orientation), orientation, daikin, raw)))
  }

  /**
   * `recalculate` as written: Daikin's factor is 130 when the raw factor is
   * above 130, and the raw factor otherwise, whatever scale it is stored in.
   */
  function Recalculate<E>(s: seq<Evaporator>, v: Option<real>, orientation: Orientation,
                          search: (seq<real>, real, Brand, Orientation) -> E): (r: Option<Results<E>>)
    ensures r.None? <==> TotalDemand(s) == 0.0
    ensures r.Some? ==>
      var raw := RawFactor(v);
      var sam := r.value.samsung;
      var dai := r.value.daikin;
      && sam.factorUsed == raw && sam.factorSelected == raw && dai.factorSelected == raw
      && dai.factorUsed <= 130.0
      && (raw <= 130.0 ==> dai.factorUsed == raw)
      && (raw > 130.0 ==> dai.factorUsed == 130.0)
      && sam.orientation == orientation && dai.orientation == orientation
      && sam.selection == search([TotalDemand(s)], raw, Samsung, orientation)
      && dai.selection == search([TotalDemand(s)], dai.factorUsed, Daikin, orientation)
  {
    RecalculateWith(s, v, orientation, search, DaikinFactor)
  }

  /**
   * `recalculate` with the Daikin cap applied on the scale the factor is stored
   * in: Daikin's factor never exceeds 130%, and is exactly 130% when the raw
   * factor is above it.
   */
  function RecalculateCorrected<E>(s: seq<Evaporator>, v: Option<real>, orientation: Orientation,
                                   search: (seq<real>, real, Brand, Orientation) -> E): (r: Option<Results<E>>)
    ensures r.None? <==> TotalDemand(s) == 0.0
    ensures r.Some? ==>
      var raw := RawFactor(v);
      var sam := r.value.samsung;
      var dai := r.value.daikin;
      && sam.factorUsed == raw && sam.factorSelected == raw && dai.factorSelected == raw
      && PercentScale(dai.factorUsed) <= 130.0
      && (PercentScale(raw) <= 130.0 ==> dai.factorUsed == raw)
      && (PercentScale(raw) > 130.0 ==> PercentScale(dai.factorUsed) == 130.0)
      && sam.orientation == orientation && dai.orientation == orientation
      && sam.selection == search([TotalDemand(s)], raw, Samsung, orientation)
      && dai.selection == search([TotalDemand(s)], dai.factorUsed, Daikin, orientation)
  {
    RecalculateWith(s, v, orientation, search, DaikinFactorNormalised)
  }

  /**
   * The corrected recalculation differs from the one as written only for a
   * factor stored as a fraction above 1.3: for percents, and for fractions
   * up to 1.3, both give the same results.
   */
  lemma RecalculateCorrectedAgrees<E>(s: seq<Evaporator>, v: Option<real>, o: Orientation,
                                      search: (seq<real>, real, Brand, Orientation) -> E)
    ensures RawFactor(v) > 10.0 || RawFactor(v) <= 1.3 ==>
      RecalculateCorrected(s, v, o, search) == Recalculate(s, v, o, search)
    ensures TotalDemand(s) != 0.0 && 1.3 < RawFactor(v) <= 10.0 ==>
      RecalculateCorrected(s, v, o, search).value.daikin.factorUsed == 1.3
      && Recalculate(s, v, o, search).value.daikin.factorUsed == RawFactor(v)
  {
  }

  /**
   * As written, a non-empty list with the factor stored as 1.45 shows the
   * notice that the calculations use 130%, yet Daikin is searched with 1.45.
   */
  lemma RecalculateFractionEscapesCap<E>(s: seq<Evaporator>, o: Orientation,
                                         search: (seq<real>, real, Brand, Orientation) -> E)
    requires TotalDemand(s) != 0.0
    ensures DaikinCapNotice(Daikin, Some(1.45))
    ensures Recalculate(s, Some(1.45), o, search).value.daikin.factorUsed == 1.45
    ensures Recalculate(s, Some(1.45), o, search).value.daikin.selection == search([TotalDemand(s)], 1.45, Daikin, o)
    ensures PercentScale(RecalculateCorrected(s, Some(1.45), o, search).value.daikin.factorUsed) == 130.0
  {
    DaikinCapMissedOnFractionScale();
  }

  /** A 145% selection: Samsung is computed with 145, Daikin with 130, both report 145 as selected. */
  lemma RecalculateSplitsAt145<E>(s: seq<Evaporator>, o: Orientation, search: (seq<real>, real, Brand, Orientation) -> E)
    requires TotalDemand(s) != 0.0
    ensures var r := Recalculate(s, Some(145.0), o, search).value;
      r.samsung.factorUsed == 145.0 && r.daikin.factorUsed == 130.0
      && r.samsung.factorSelected == 145.0 && r.daikin.factorSelected == 145.0
  {
  }

  /** Two hi-wall units of real capacity 7034 at "Corporativo" (110) give a demand of 14068. */
  lemma RecalculateTwoHiWalls<E>(o: Orientation, search: (seq<real>, real, Brand, Orientation) -> E)
    ensures var s := [Evaporator("hi-wall", 7, 7034.0, 2)];
      TotalDemand(s) == 14068.0
      && Recalculate(s, Some(110.0), o, search).Some?
      && Recalculate(s, Some(110.0), o, search).value.samsung.selection == search([14068.0], 110.0, Samsung, o)
      && Recalculate(s, Some(110.0), o, search).value.daikin.selection == search([14068.0], 110.0, Daikin, o)
  {
    var s := [Evaporator("hi-wall", 7, 7034.0, 2)];
    assert s[1..] == [];
  }

  // ---------------------------------------------------------------------------
  // The component state
  // ---------------------------------------------------------------------------

  /**
   * The picker and orientation state (`params`); `nominal` and `quantity` hold
   * `parseInt` of the selected option's text.
   */
  datatype Params = Params(token: string, orientation: Orientation, kind: string, nominal: Option<int>, quantity: Option<int>)

  const InitialParams: Params := Params("corporativo", Vertical, "hi-wall", Some(7), Some(1))

  /** The quantity picker offers 1 to 10. */
  predicate QuantityOffered(q: Option<int>) {
    q.Some? && 1 <= q.value <= 10
  }

  class Calculator {
    const catalog: Catalog
    var entries: seq<Evaporator>
    var options: seq<SimultOption>
    var form: FactorForm
    var params: Params
    var brand: Brand

    ghost predicate Valid()
      reads this
    {
      KeysUnique(entries) && QuantitiesPositive(entries) && QuantityOffered(params.quantity)
    }

    constructor (catalog: Catalog)
      ensures Valid()
      ensures this.catalog == catalog && entries == [] && options == []
      ensures form == InitialForm && params == InitialParams && brand == Samsung
    {
      this.catalog := catalog;
      entries := [];
      options := [];
      form := InitialForm;
      params := InitialParams;
      brand := Samsung;
    }

    /**
     * The results shown: `recalculate` re-runs after every change of list,
     * factor or orientation, so they are those of the current state. There is
     * a result iff the list's demand is non-zero, and the factors are the
     * form's raw factor for Samsung and its capped value for Daikin.
     */
    function Results<E>(search: (seq<real>, real, Brand, Orientation) -> E): (r: Option<Results<E>>)
      reads this
      ensures r.None? <==> TotalDemand(entries) == 0.0
      ensures r.Some? ==>
        && r.value.samsung.factorUsed == RawFactor(form.value)
        && r.value.daikin.factorUsed == DaikinFactor(RawFactor(form.value))
        && r.value.samsung.orientation == params.orientation
    {
      Recalculate(entries, form.value, params.orientation, search)
    }

    /**
     * End of the options load, given what the main and the legacy table
     * answered (`None` for an error or `null` data); the default row is
     * applied unless the main table answered with no rows.
     */
    method LoadOptions(main: Option<seq<SimultOption>>, legacy: Option<seq<SimultOption>>)
      requires Valid()
      modifies this
      ensures Valid()
      ensures options == LoadedSimultOptions(main, legacy)
      ensures form == ApplyDefault(old(form), options)
      ensures main == Some([]) ==> form == old(form)
      ensures entries == old(entries) && params == old(params) && brand == old(brand)
    {
      options := LoadedSimultOptions(main, legacy);
      form := ApplyDefault(form, options);
    }

    /** Choosing a row in the factor picker; an unknown id changes nothing. */
    method SelectOption(id: int)
      requires Valid()
      modifies this
      ensures Valid()
      ensures var o := FindOption(old(options), id);
        form == if o.Some? then FactorForm(o, Some(o.value.valor)) else old(form)
      ensures entries == old(entries) && options == old(options) && params == old(params) && brand == old(brand)
    {
      var o := FindOption(options, id);
      if o.Some? {
        form := FactorForm(o, Some(o.value.valor));
      }
    }

    method SetOrientation(o: Orientation)
      requires Valid()
      modifies this
      ensures Valid()
      ensures params == old(params).(orientation := o)
      ensures entries == old(entries) && options == old(options) && form == old(form) && brand == old(brand)
    {
      params := params.(orientation := o);
    }

    /** The type, nominal and quantity pickers. */
    method SetPicker(kind: string, nominal: Option<int>, quantity: Option<int>)
      requires Valid() && QuantityOffered(quantity)
      modifies this
      ensures Valid()
      ensures params == old(params).(kind := kind, nominal := nominal, quantity := quantity)
      ensures entries == old(entries) && options == old(options) && form == old(form) && brand == old(brand)
    {
      params := params.(kind := kind, nominal := nominal, quantity := quantity);
    }

    /** `handleAdd` */
    method Add()
      requires Valid()
      modifies this
      ensures Valid()
      ensures var nominal := OrElseInt(params.nominal, NominalDefault);
        var qtd := OrElseInt(params.quantity, QuantityDefault);
        var realBtu := OrElse(Lookup(catalog, brand, params.kind, nominal), FallbackRealBtu);
        entries == Added(old(entries), params.kind, nominal, realBtu, qtd)
      ensures options == old(options) && form == old(form) && params == old(params) && brand == old(brand)
    {
      var nominal := OrElseInt(params.nominal, NominalDefault);
      var qtd := OrElseInt(params.quantity, QuantityDefault);
      var realBtu := OrElse(Lookup(catalog, brand, params.kind, nominal), FallbackRealBtu);
      AddKeepsInvariants(entries, params.kind, nominal, realBtu, qtd);
      entries := Added(entries, params.kind, nominal, realBtu, qtd);
    }

    /** `handleChangeQtd(index, value)` */
    method ChangeQuantity(index: nat, value: Option<real>)
      requires Valid() && index < |entries|
      modifies this
      ensures Valid()
      ensures entries == WithQuantity(old(entries), index, value)
      ensures options == old(options) && form == old(form) && params == old(params) && brand == old(brand)
    {
      ChangeQuantityKeepsInvariants(entries, index, value);
      entries := WithQuantity(entries, index, value);
    }

    /** `handleRemove(index)` */
    method Remove(index: int)
      requires Valid()
      modifies this
      ensures Valid()
      ensures entries == RemoveAt(old(entries), index)
      ensures options == old(options) && form == old(form) && params == old(params) && brand == old(brand)
    {
      RemoveKeepsInvariants(entries, index);
      entries := RemoveAt(entries, index);
    }

    /** `handleClear` */
    method Clear()
      requires Valid()
      modifies this
      ensures Valid()
      ensures entries == [] && params == InitialParams && form == ApplyDefault(old(form), options)
      ensures options == old(options) && brand == old(brand)
    {
      entries := [];
      params := InitialParams;
      form := ApplyDefault(form, options);
    }

    /** The brand toggle together with the effect it triggers. */
    method SelectBrand(b: Brand)
      requires Valid()
      modifies this
      ensures Valid()
      ensures brand == b
      ensures entries == if b == old(brand) then old(entries) else Relookup(old(entries), catalog, b)
      ensures options == old(options) && form == old(form) && params == old(params)
    {
      if b != brand {
        RelookupKeepsLines(entries, catalog, b);
        entries := Relookup(entries, catalog, b);
      }
      brand := b;
    }
  }
}
