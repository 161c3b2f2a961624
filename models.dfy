/** The catalog's schema (models.py): editor records, the switch columns with their
    declared types and display labels, equivalence edges, and the text form of a switch. */
module Models {
  import opened Wrappers
  import opened Text

  /** An authorization record; `id` is the primary key (models.py:31-41). */
  datatype User = User(id: string, privilege: string) {
    predicate IsAdmin() {
      Lower(privilege) == "admin"
    }

    predicate CanEdit() {
      Lower(privilege) == "editor" || IsAdmin()
    }
  }

  /** Every admin can edit; privileges compare without regard to case (models.py:37-41). */
  lemma PrivilegeRules(u: User)
    ensures u.IsAdmin() ==> u.CanEdit()
    ensures u.CanEdit() <==> Lower(u.privilege) in {"editor", "admin"}
    ensures User(u.id, "Admin").IsAdmin() && User(u.id, "EDITOR").CanEdit()
    ensures !User(u.id, "viewer").CanEdit()
  {
    assert Lower("Admin") == "admin";
    assert Lower("EDITOR") == "editor";
    assert Lower("viewer") == "viewer";
  }

  /** The SQL types the columns are declared with. */
  datatype ColumnType = Varchar | Integer | Boolean

  /** The columns of the `switch` table, in declaration order (models.py:52-88). */
  datatype Column =
    | Id | Platform | Model | Modular | Stackable | NetworkModule | Tier
    | DlGe | DlGePoe | DlGePoep | DlGeUpoep | DlGeSfp | Dl2GeUpoe | DlMgigPoep | DlMgigUpoe
    | Dl10Ge | Dl10GeSfpp | Dl25GeSfp28 | Dl40GeQsfpp | Dl100GeQsfp28
    | UlGeSfp | UlMgig | Ul10GeSfpp | Ul25GeSfp28 | Ul40GeQsfpp | Ul100GeQsfp28
    | PoePower | SwitchingCapacity | MacEntry | Vlan | Note
  {
    /** The attribute name. */
    function Name(): string {
      match this
      case Id => "id"
      case Platform => "platform"
      case Model => "model"
      case Modular => "modular"
      case Stackable => "stackable"
      case NetworkModule => "network_module"
      case Tier => "tier"
      case DlGe => "dl_ge"
      case DlGePoe => "dl_ge_poe"
      case DlGePoep => "dl_ge_poep"
      case DlGeUpoep => "dl_ge_upoep"
      case DlGeSfp => "dl_ge_sfp"
      case Dl2GeUpoe => "dl_2ge_upoe"
      case DlMgigPoep => "dl_mgig_poep"
      case DlMgigUpoe => "dl_mgig_upoe"
      case Dl10Ge => "dl_10ge"
      case Dl10GeSfpp => "dl_10ge_sfpp"
      case Dl25GeSfp28 => "dl_25ge_sfp28"
      case Dl40GeQsfpp => "dl_40ge_qsfpp"
      case Dl100GeQsfp28 => "dl_100ge_qsfp28"
      case UlGeSfp => "ul_ge_sfp"
      case UlMgig => "ul_mgig"
      case Ul10GeSfpp => "ul_10ge_sfpp"
      case Ul25GeSfp28 => "ul_25ge_sfp28"
      case Ul40GeQsfpp => "ul_40ge_qsfpp"
      case Ul100GeQsfp28 => "ul_100ge_qsfp28"
      case PoePower => "poe_power"
      case SwitchingCapacity => "switching_capacity"
      case MacEntry => "mac_entry"
      case Vlan => "vlan"
      case Note => "note"
    }

    function Type(): ColumnType {
      match this
      case Id | Platform | Model | NetworkModule | Tier | Note => Varchar
      case Modular | Stackable => Boolean
      case _ => Integer
    }

    /** The display label `_name_mapping` gives the column (models.py:91-123). */
    function Label(): string {
      match this
      case Id => "ID"
      case Platform => "Platform"
      case Model => "Model"
      case Modular => "Modular?"
      case Stackable => "Stackable?"
      case NetworkModule => "Network Module"
      case Tier => "Tier"
      case DlGe => "1GE DL"
      case DlGePoe => "1GE-PoE DL"
      case DlGePoep => "1GE-PoE+ DL"
      case DlGeUpoep => "1GE-UPoE+ DL"
      case DlGeSfp => "1G-SFP DL"
      case Dl2GeUpoe => "2.5GE-UPoE DL"
      case DlMgigPoep => "mGig-PoE+ DL"
      case DlMgigUpoe => "mGig-UPoE DL"
      case Dl10Ge => "10GE DL"
      case Dl10GeSfpp => "10G-SFP+ DL"
      case Dl25GeSfp28 => "25G-SFP28 DL"
      case Dl40GeQsfpp => "40G-QSFP+ DL"
      case Dl100GeQsfp28 => "100G-QSFP28 DL"
      case UlGeSfp => "1G-SFP UL"
      case UlMgig => "mGig UL"
      case Ul10GeSfpp => "10G-SFP UL"
      case Ul25GeSfp28 => "25G-SFP28 UL"
      case Ul40GeQsfpp => "40G-QSFP+ UL"
      case Ul100GeQsfp28 => "100G-QSFP28 UL"
      case PoePower => "PoE Power"
      case SwitchingCapacity => "Switching Capacity"
      case MacEntry => "Mac Table Size"
      case Vlan => "VLAN"
      case Note => "Notes"
    }
  }

  /** All columns, in declaration order; `_name_mapping` lists them in the same order. */
  const Columns: seq<Column> :=
    [Id, Platform, Model, Modular, Stackable, NetworkModule, Tier,
     DlGe, DlGePoe, DlGePoep, DlGeUpoep, DlGeSfp, Dl2GeUpoe, DlMgigPoep, DlMgigUpoe,
     Dl10Ge, Dl10GeSfpp, Dl25GeSfp28, Dl40GeQsfpp, Dl100GeQsfp28,
     UlGeSfp, UlMgig, Ul10GeSfpp, Ul25GeSfp28, Ul40GeQsfpp, Ul100GeQsfp28,
     PoePower, SwitchingCapacity, MacEntry, Vlan, Note]

  /** The column an attribute name denotes, the explicit stand-in for
      `getattr(models.Switch, name)`; `None` where Python raises `AttributeError`.
      The names are tried grouped by length. */
  function ColumnNamed(name: string): (r: Option<Column>)
    ensures r.Some? ==> r.value.Name() == name
  {
    match |name|
    case 2 =>
      if name[0] == 'i' && name == Id.Name() then Some(Id)
      else None
    case 4 =>
      if name[0] == 't' && name == Tier.Name() then Some(Tier)
      else if name[0] == 'v' && name == Vlan.Name() then Some(Vlan)
      else if name[0] == 'n' && name == Note.Name() then Some(Note)
      else None
    case 5 =>
      if name[0] == 'm' && name == Model.Name() then Some(Model)
      else if name[0] == 'd' && name == DlGe.Name() then Some(DlGe)
      else None
    case 7 =>
      if name[0] == 'm' && name == Modular.Name() then Some(Modular)
      else if name[0] == 'd' && name == Dl10Ge.Name() then Some(Dl10Ge)
      else if name[0] == 'u' && name == UlMgig.Name() then Some(UlMgig)
      else None
    case 8 =>
      if name[0] == 'p' && name == Platform.Name() then Some(Platform)
      else None
    case 9 =>
      if name[0] == 's' && name == Stackable.Name() then Some(Stackable)
      else if name[0] == 'd' && name == DlGePoe.Name() then Some(DlGePoe)
      else if name[0] == 'd' && name == DlGeSfp.Name() then Some(DlGeSfp)
      else if name[0] == 'u' && name == UlGeSfp.Name() then Some(UlGeSfp)
      else if name[0] == 'p' && name == PoePower.Name() then Some(PoePower)
      else if name[0] == 'm' && name == MacEntry.Name() then Some(MacEntry)
      else None
    case 10 =>
      if name[0] == 'd' && name == DlGePoep.Name() then Some(DlGePoep)
      else None
    case 11 =>
      if name[0] == 'd' && name == DlGeUpoep.Name() then Some(DlGeUpoep)
      else if name[0] == 'd' && name == Dl2GeUpoe.Name() then Some(Dl2GeUpoe)
      else None
    case 12 =>
      if name[0] == 'd' && name == DlMgigPoep.Name() then Some(DlMgigPoep)
      else if name[0] == 'd' && name == DlMgigUpoe.Name() then Some(DlMgigUpoe)
      else if name[0] == 'd' && name == Dl10GeSfpp.Name() then Some(Dl10GeSfpp)
      else if name[0] == 'u' && name == Ul10GeSfpp.Name() then Some(Ul10GeSfpp)
      else None
    case 13 =>
      if name[0] == 'd' && name == Dl25GeSfp28.Name() then Some(Dl25GeSfp28)
      else if name[0] == 'd' && name == Dl40GeQsfpp.Name() then Some(Dl40GeQsfpp)
      else if name[0] == 'u' && name == Ul25GeSfp28.Name() then Some(Ul25GeSfp28)
      else if name[0] == 'u' && name == Ul40GeQsfpp.Name() then Some(Ul40GeQsfpp)
      else None
    case 14 =>
      if name[0] == 'n' && name == NetworkModule.Name() then Some(NetworkModule)
      else None
    case 15 =>
      if name[0] == 'd' && name == Dl100GeQsfp28.Name() then Some(Dl100GeQsfp28)
      else if name[0] == 'u' && name == Ul100GeQsfp28.Name() then Some(Ul100GeQsfp28)
      else None
    case 18 =>
      if name[0] == 's' && name == SwitchingCapacity.Name() then Some(SwitchingCapacity)
      else None
    case _ => None
  }

  /** Every column is found by its own name, so no two columns share a name and a name
      that finds nothing belongs to no column. */
  lemma NameRoundTrip(c: Column)
    ensures ColumnNamed(c.Name()) == Some(c)
  {
    if c in {DlGe, DlGePoe, DlGePoep, DlGeUpoep, DlGeSfp, Dl2GeUpoe, DlMgigPoep, DlMgigUpoe, Dl10Ge, Dl10GeSfpp, Dl25GeSfp28, Dl40GeQsfpp, Dl100GeQsfp28} {
      DownlinkNameRoundTrip(c);
    } else if c in {UlGeSfp, UlMgig, Ul10GeSfpp, Ul25GeSfp28, Ul40GeQsfpp, Ul100GeQsfp28, PoePower, SwitchingCapacity, MacEntry, Vlan} {
      UplinkNameRoundTrip(c);
    } else {
      match c
      case Id =>
      case Platform =>
      case Model =>
      case Modular =>
      case Stackable =>
      case NetworkModule =>
      case Tier =>
      case Note =>
      case _ =>
    }
  }

  lemma DownlinkNameRoundTrip(c: Column)
    requires c in {DlGe, DlGePoe, DlGePoep, DlGeUpoep, DlGeSfp, Dl2GeUpoe, DlMgigPoep, DlMgigUpoe, Dl10Ge, Dl10GeSfpp, Dl25GeSfp28, Dl40GeQsfpp, Dl100GeQsfp28}
    ensures ColumnNamed(c.Name()) == Some(c)
  {
    match c
    case DlGe =>
    case DlGePoe =>
    case DlGePoep =>
    case DlGeUpoep =>
    case DlGeSfp =>
    case Dl2GeUpoe =>
    case DlMgigPoep =>
    case DlMgigUpoe =>
    case Dl10Ge =>
    case Dl10GeSfpp =>
    case Dl25GeSfp28 =>
    case Dl40GeQsfpp =>
    case Dl100GeQsfp28 =>
    case _ =>
  }

  lemma UplinkNameRoundTrip(c: Column)
    requires c in {UlGeSfp, UlMgig, Ul10GeSfpp, Ul25GeSfp28, Ul40GeQsfpp, Ul100GeQsfp28, PoePower, SwitchingCapacity, MacEntry, Vlan}
    ensures ColumnNamed(c.Name()) == Some(c)
  {
    match c
    case UlGeSfp =>
    case UlMgig =>
    case Ul10GeSfpp =>
    case Ul25GeSfp28 =>
    case Ul40GeQsfpp =>
    case Ul100GeQsfp28 =>
    case PoePower =>
    case SwitchingCapacity =>
    case MacEntry =>
    case Vlan =>
    case _ =>
  }

  lemma ColumnNamedNone(name: string)
    ensures ColumnNamed(name).None? ==> forall c: Column :: c.Name() != name
  {
    forall c: Column
      ensures ColumnNamed(name).None? ==> c.Name() != name
    {
      NameRoundTrip(c);
    }
  }

  /** Every column is listed in `Columns`. */
  lemma ColumnListed(c: Column)
    ensures c in Columns && |Columns| == 31
  {
    match c
    case Id =>
    case Platform =>
    case Model =>
    case Modular =>
    case Stackable =>
    case NetworkModule =>
    case Tier =>
    case DlGe =>
    case DlGePoe =>
    case DlGePoep =>
    case DlGeUpoep =>
    case DlGeSfp =>
    case Dl2GeUpoe =>
    case DlMgigPoep =>
    case DlMgigUpoe =>
    case Dl10Ge =>
    case Dl10GeSfpp =>
    case Dl25GeSfp28 =>
    case Dl40GeQsfpp =>
    case Dl100GeQsfp28 =>
    case UlGeSfp =>
    case UlMgig =>
    case Ul10GeSfpp =>
    case Ul25GeSfp28 =>
    case Ul40GeQsfpp =>
    case Ul100GeQsfp28 =>
    case PoePower =>
    case SwitchingCapacity =>
    case MacEntry =>
    case Vlan =>
    case Note =>
  }

  /** No column name is empty or starts with `_`, the mark of the ORM's internal
      attributes. */
  lemma NameShape(c: Column)
    ensures c.Name() != [] && c.Name()[0] != '_'
  {
    match c
    case Id =>
    case Platform =>
    case Model =>
    case Modular =>
    case Stackable =>
    case NetworkModule =>
    case Tier =>
    case DlGe =>
    case DlGePoe =>
    case DlGePoep =>
    case DlGeUpoep =>
    case DlGeSfp =>
    case Dl2GeUpoe =>
    case DlMgigPoep =>
    case DlMgigUpoe =>
    case Dl10Ge =>
    case Dl10GeSfpp =>
    case Dl25GeSfp28 =>
    case Dl40GeQsfpp =>
    case Dl100GeQsfp28 =>
    case UlGeSfp =>
    case UlMgig =>
    case Ul10GeSfpp =>
    case Ul25GeSfp28 =>
    case Ul40GeQsfpp =>
    case Ul100GeQsfp28 =>
    case PoePower =>
    case SwitchingCapacity =>
    case MacEntry =>
    case Vlan =>
    case Note =>
  }

  /** The declared types (models.py:55-88): the two flags are booleans, the port counts
      and the four capacity figures integers, the rest text. */
  lemma ColumnTypes(c: Column)
    ensures c.Type() == Boolean <==> c in {Modular, Stackable}
    ensures c.Type() == Integer <==>
      StartsWith(c.Name(), "dl_") || StartsWith(c.Name(), "ul_") ||
      c in {PoePower, SwitchingCapacity, MacEntry, Vlan}
    ensures c.Type() == Varchar <==> c in {Id, Platform, Model, NetworkModule, Tier, Note}
  {
    if StartsWith(c.Name(), "dl_") || StartsWith(c.Name(), "ul_") {
      assert c.Name()[0] in "du";
    }
    match c
    case Id =>
    case Platform =>
    case Model =>
    case Modular =>
    case Stackable =>
    case NetworkModule =>
    case Tier =>
    case DlGe =>
    case DlGePoe =>
    case DlGePoep =>
    case DlGeUpoep =>
    case DlGeSfp =>
    case Dl2GeUpoe =>
    case DlMgigPoep =>
    case DlMgigUpoe =>
    case Dl10Ge =>
    case Dl10GeSfpp =>
    case Dl25GeSfp28 =>
    case Dl40GeQsfpp =>
    case Dl100GeQsfp28 =>
    case UlGeSfp =>
    case UlMgig =>
    case Ul10GeSfpp =>
    case Ul25GeSfp28 =>
    case Ul40GeQsfpp =>
    case Ul100GeQsfp28 =>
    case PoePower =>
    case SwitchingCapacity =>
    case MacEntry =>
    case Vlan =>
    case Note =>
  }

  /** A column value as the ORM hands it over: SQL NULL is Python's `None`. */
  datatype Value = Null | Bool(b: bool) | Int(i: int) | Str(s: string)

  /** Python truthiness of a value. */
  predicate Truthy(v: Value) {
    match v
    case Null => false
    case Bool(b) => b
    case Int(i) => i != 0
    case Str(s) => s != ""
  }

  /** Python's `str(value)`. */
  function Show(v: Value): string {
    match v
    case Null => "None"
    case Bool(b) => if b then "True" else "False"
    case Int(i) => IntToString(i)
    case Str(s) => s
  }

  /** One row of the `switch` table; a column it does not hold is NULL. */
  datatype Switch = Switch(attrs: map<Column, Value>) {
    function Get(c: Column): Value {
      if c in attrs then attrs[c] else Null
    }

    function Set(c: Column, v: Value): (r: Switch)
      ensures r.Get(c) == v && forall d :: d != c ==> r.Get(d) == Get(d)
    {
      Switch(attrs[c := v])
    }
  }

  /** A new `models.Switch()`: every column NULL. */
  const Blank: Switch := Switch(map[])

  /** An equivalence edge between a Catalyst id and a Meraki id (models.py:44-49). */
  datatype Mapping = Mapping(catalyst: string, meraki: string)

  const ReprHeader: string := "Here are the details of the equivalent switch:\n\n"

  /** `__repr__` prints an attribute when its value is truthy and not the text 'null'
      (models.py:129); its third test, a name starting with `_`, only drops the ORM's
      internal state, since no column name starts with `_` (`NameShape`). */
  predicate Shown(sw: Switch, c: Column) {
    Truthy(sw.Get(c)) && sw.Get(c) != Str("null")
  }

  /** The columns among `cols` that `__repr__` prints, in order. */
  function ShownColumns(sw: Switch, cols: seq<Column>): seq<Column>
    decreases |cols|
  {
    if cols == [] then []
    else
      var last := cols[|cols| - 1];
      ShownColumns(sw, cols[..|cols| - 1]) + if Shown(sw, last) then [last] else []
  }

  /** The line `__repr__` writes for one column. */
  function ReprLine(sw: Switch, c: Column): string {
    c.Name() + ": " + Show(sw.Get(c)) + "\n"
  }

  /** The `attr: value` lines for `cols`. */
  function ReprLines(sw: Switch, cols: seq<Column>): string
    decreases |cols|
  {
    if cols == [] then [] else ReprLines(sw, cols[..|cols| - 1]) + ReprLine(sw, cols[|cols| - 1])
  }

  lemma ReprLinesAppend(sw: Switch, cols: seq<Column>, c: Column)
    ensures ReprLines(sw, cols + [c]) == ReprLines(sw, cols) + ReprLine(sw, c)
  {
    assert (cols + [c])[..|cols|] == cols;
  }

  lemma ShownAppend(sw: Switch, cols: seq<Column>, c: Column)
    ensures ShownColumns(sw, cols + [c]) == ShownColumns(sw, cols) + if Shown(sw, c) then [c] else []
  {
    assert (cols + [c])[..|cols|] == cols;
  }

  /** `Switch.__repr__` (models.py:125-132): the fixed header, then one line per shown
      column in column order. */
  method SwitchRepr(sw: Switch) returns (text: string)
    ensures text == ReprHeader + ReprLines(sw, ShownColumns(sw, Columns))
  {
    var lines := AttributeLines(sw, Columns);
    text := ReprHeader + lines;
  }

  /** The loop of `__repr__` over the attributes `cols`. */
  method AttributeLines(sw: Switch, cols: seq<Column>) returns (text: string)
    ensures text == ReprLines(sw, ShownColumns(sw, cols))
  {
    text := "";
    var i := 0;
    while i < |cols|
      invariant 0 <= i <= |cols|
      invariant text == ReprLines(sw, ShownColumns(sw, cols[..i]))
    {
      var c := cols[i];
      ghost var before := ShownColumns(sw, cols[..i]);
      assert cols[..i + 1] == cols[..i] + [c];
      ShownAppend(sw, cols[..i], c);
      if Truthy(sw.Get(c)) && sw.Get(c) != Str("null") {
        assert ShownColumns(sw, cols[..i + 1]) == before + [c];
        ReprLinesAppend(sw, before, c);
        text := text + ReprLine(sw, c);
      } else {
        assert ShownColumns(sw, cols[..i + 1]) == before;
      }
      i := i + 1;
    }
    assert cols[..|cols|] == cols;
  }

  /** The shown columns are exactly the listed columns that pass `Shown`. */
  lemma {:induction false} ShownMembership(sw: Switch, cols: seq<Column>, c: Column)
    ensures c in ShownColumns(sw, cols) <==> c in cols && Shown(sw, c)
    decreases |cols|
  {
    if cols != [] {
      var init := cols[..|cols| - 1];
      ShownMembership(sw, init, c);
      assert cols == init + [cols[|cols| - 1]];
    }
  }

  /** A column gets its line exactly when its value is truthy and not 'null': zero, False,
      NULL and the empty text are left out (models.py:129). */
  lemma ReprShowsExactly(sw: Switch, c: Column)
    ensures c in ShownColumns(sw, Columns) <==> Truthy(sw.Get(c)) && sw.Get(c) != Str("null")
    ensures sw.Get(c) in {Null, Int(0), Bool(false), Str("")} ==> c !in ShownColumns(sw, Columns)
  {
    ColumnListed(c);
    ShownMembership(sw, Columns, c);
  }
}
