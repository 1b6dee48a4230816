/**
 * The simultaneity-mode selector (`ModeSelector`): the options it loads, and
 * the resolution of the mode token it receives (`'residencial'`,
 * `'corporativo'`, a numeric string, `'maximo'`, anything else) into the value
 * it shows and, when that differs, reports back through `onChange`.
 *
 * `Number.prototype.toString` is the parameter `show`.
 */
module ModeSelection {
  import opened Wrappers
  import opened Text

  /** One option: a name and its factor (1.1 means 110%). */
  datatype ModeOption = ModeOption(nome: string, valor: real)

  /** A field of a fetched row as `typeof` sees it. */
  datatype RawValue = Str(s: string) | Num(x: real) | OtherValue

  datatype RawRow = RawRow(nome: RawValue, valor: RawValue)

  /** The outcome of the query: an error, or `data`, which may be `null`. */
  datatype Response = Failed | Rows(data: Option<seq<RawRow>>)

  /** The options used when the query fails. */
  const ErrorFallback: seq<ModeOption> := [ModeOption("Corporativo", 1.1), ModeOption("Residencial", 1.4)]

  /** The rows with a string `nome` and a number `valor`, in order. */
  function KeptRows(rows: seq<RawRow>): (r: seq<ModeOption>)
    ensures |r| <= |rows|
  {
    if rows == [] then []
    else
      var rest := KeptRows(rows[1..]);
      match rows[0]
      case RawRow(Str(n), Num(v)) => [ModeOption(n, v)] + rest
      case _ => rest
  }

  /** An option is kept exactly when some row has that string `nome` and number `valor`. */
  lemma {:induction false} KeptRowsMembers(rows: seq<RawRow>)
    ensures forall o :: o in KeptRows(rows) <==> RawRow(Str(o.nome), Num(o.valor)) in rows
  {
    if rows != [] {
      KeptRowsMembers(rows[1..]);
      assert rows == [rows[0]] + rows[1..];
    }
  }

  /** Rows that are all well formed are kept one for one, in order. */
  lemma {:induction false} KeptRowsAllWellFormed(rows: seq<RawRow>)
    requires forall i :: 0 <= i < |rows| ==> rows[i].nome.Str? && rows[i].valor.Num?
    ensures |KeptRows(rows)| == |rows|
    ensures forall i :: 0 <= i < |rows| ==> KeptRows(rows)[i] == ModeOption(rows[i].nome.s, rows[i].valor.x)
  {
    if rows != [] {
      var tail := rows[1..];
      KeptRowsAllWellFormed(tail);
      var head := ModeOption(rows[0].nome.s, rows[0].valor.x);
      assert rows[0] == RawRow(Str(head.nome), Num(head.valor));
      assert KeptRows(rows) == [head] + KeptRows(tail);
      forall i | 1 <= i < |rows| ensures KeptRows(rows)[i] == ModeOption(rows[i].nome.s, rows[i].valor.x) {
        assert rows[i] == tail[i - 1];
      }
    }
  }

  /** The option list after the load. */
  function LoadedOptions(resp: Response): (r: seq<ModeOption>)
    ensures resp.Failed? ==> r == ErrorFallback
    ensures resp.Rows? && resp.data.None? ==> r == []
    ensures resp.Rows? && resp.data.Some? ==>
      forall o :: o in r <==> RawRow(Str(o.nome), Num(o.valor)) in resp.data.value
  {
    match resp
    case Failed => ErrorFallback
    case Rows(data) =>
      KeptRowsMembers(data.GetOr([]));
      KeptRows(data.GetOr([]))
  }

  /** `options.find(o => o.nome.toLowerCase() === name)`, as an index. */
  function FindNamed(opts: seq<ModeOption>, name: string): (r: Option<nat>)
    ensures r.Some? ==> r.value < |opts| && ToLower(opts[r.value].nome) == name
    ensures r.Some? ==> forall j :: 0 <= j < r.value ==> ToLower(opts[j].nome) != name
    ensures r.None? <==> forall j :: 0 <= j < |opts| ==> ToLower(opts[j].nome) != name
  {
    if opts == [] then None
    else if ToLower(opts[0].nome) == name then Some(0)
    else
      var r := FindNamed(opts[1..], name);
      assert forall j :: 1 <= j < |opts| ==> opts[1..][j - 1] == opts[j];
      if r.Some? then Some(r.value + 1) else None
  }

  /** The value of the first "residencial" option, else of the first option, else `""`. */
  function ResidDefault(opts: seq<ModeOption>, show: real -> string): (r: string)
    ensures FindNamed(opts, "residencial").Some? ==> r == show(opts[FindNamed(opts, "residencial").value].valor)
    ensures FindNamed(opts, "residencial").None? && opts != [] ==> r == show(opts[0].valor)
    ensures opts == [] ==> r == ""
  {
    match FindNamed(opts, "residencial")
    case Some(i) => show(opts[i].valor)
    case None => if opts == [] then "" else show(opts[0].valor)
  }

  /** The option whose value is the residential default. */
  lemma ResidDefaultIndex(opts: seq<ModeOption>, show: real -> string) returns (k: nat)
    requires opts != []
    ensures k < |opts| && ResidDefault(opts, show) == show(opts[k].valor)
  {
    var f := FindNamed(opts, "residencial");
    k := if f.Some? then f.value else 0;
  }

  /** What one run of the resolution does: the value shown, and what `onChange` receives. */
  datatype Effect = Effect(selected: string, emitted: Option<string>)

  /**
   * The resolution effect: nothing without options; otherwise the resolved
   * value is shown, and reported when it is non-empty and differs from the token.
   */
  function Resolve(value: string, opts: seq<ModeOption>, show: real -> string): (r: Option<Effect>)
    ensures r.None? <==> opts == []
    ensures r.Some? ==> (r.value.emitted.Some? <==> r.value.selected != "" && r.value.selected != value)
    ensures r.Some? && r.value.emitted.Some? ==> r.value.emitted.value == r.value.selected
  {
    if opts == [] then None
    else
      var isNumeric := ParsesAsFloat(value) && value != "maximo";
      var resid := ResidDefault(opts, show);
      var next :=
        if value == "residencial" then resid
        else if value == "corporativo" then
          match FindNamed(opts, "corporativo")
          case Some(i) => show(opts[i].valor)
          case None => if isNumeric then value else resid
        else if !isNumeric && value != "maximo" then resid
        else value;
      Some(Effect(next, if next != "" && next != value then Some(next) else None))
  }

  /** The token `'residencial'` resolves to the residential default. */
  lemma ResolveResidential(opts: seq<ModeOption>, show: real -> string)
    requires opts != []
    ensures Resolve("residencial", opts, show).value.selected == ResidDefault(opts, show)
  {
  }

  /** The token `'corporativo'` resolves to the first "corporativo" option, else to the residential default. */
  lemma ResolveCorporate(opts: seq<ModeOption>, show: real -> string)
    requires opts != []
    ensures var c := FindNamed(opts, "corporativo");
      Resolve("corporativo", opts, show).value.selected
        == if c.Some? then show(opts[c.value].valor) else ResidDefault(opts, show)
  {
    WordsDoNotParse("corporativo");
  }

  /** Numeric strings and `'maximo'` stay as they are and nothing is reported. */
  lemma ResolveKeepsNumbers(value: string, opts: seq<ModeOption>, show: real -> string)
    requires opts != []
    requires ParsesAsFloat(value) || value == "maximo"
    ensures Resolve(value, opts, show) == Some(Effect(value, None))
  {
    if value == "residencial" {
      WordsDoNotParse("residencial");
    } else if value == "corporativo" {
      WordsDoNotParse("corporativo");
    }
  }

  /** Any other token resolves to the residential default. */
  lemma ResolveOtherTokens(value: string, opts: seq<ModeOption>, show: real -> string)
    requires opts != []
    requires !ParsesAsFloat(value) && value != "maximo" && value != "corporativo"
    ensures Resolve(value, opts, show).value.selected == ResidDefault(opts, show)
  {
  }

  /**
   * When every option's value is shown as a number, the resolution settles
   * after one report: resolving the reported value keeps it and reports nothing.
   */
  lemma ResolveSettles(value: string, opts: seq<ModeOption>, show: real -> string)
    requires opts != []
    requires forall i :: 0 <= i < |opts| ==> ParsesAsFloat(show(opts[i].valor))
    ensures var e := Resolve(value, opts, show).value;
      e.emitted.Some? ==> Resolve(e.selected, opts, show) == Some(Effect(e.selected, None))
  {
    var e := Resolve(value, opts, show).value;
    if e.emitted.Some? {
      var resid := ResidDefault(opts, show);
      var k := ResidDefaultIndex(opts, show);
      assert ParsesAsFloat(resid) by { assert resid == show(opts[k].valor); }
      var c := FindNamed(opts, "corporativo");
      if value == "corporativo" && c.Some? {
        assert e.selected == show(opts[c.value].valor);
      } else {
        assert e.selected == resid;
      }
      ResolveKeepsNumbers(e.selected, opts, show);
    }
  }

  /** `handleChange(val)`: the choice is shown and reported unchanged. */
  function Choose(val: string): (r: Effect)
    ensures r.selected == val && r.emitted == Some(val)
  {
    Effect(val, Some(val))
  }

  /**
   * A choice from the list (an option's value shown as a number, or
   * `'maximo'`) survives the resolution that follows it.
   */
  lemma ChoiceIsStable(opts: seq<ModeOption>, show: real -> string, i: int)
    requires opts != [] && -1 <= i < |opts|
    requires i >= 0 ==> ParsesAsFloat(show(opts[i].valor))
    ensures var val := if i >= 0 then show(opts[i].valor) else "maximo";
      Resolve(Choose(val).selected, opts, show) == Some(Effect(val, None))
  {
    var val := if i >= 0 then show(opts[i].valor) else "maximo";
    ResolveKeepsNumbers(val, opts, show);
  }

  /** The fallback list has residential 1.4 and corporate 1.1. */
  lemma FallbackTokens(show: real -> string)
    ensures ResidDefault(ErrorFallback, show) == show(1.4)
    ensures Resolve("corporativo", ErrorFallback, show).value.selected == show(1.1)
  {
    assert ToLower("Corporativo") == "corporativo";
    assert ToLower("Residencial") == "residencial";
    assert ToLower("Corporativo") != "residencial";
    WordsDoNotParse("corporativo");
  }
}
