/** The editor operations (editing.py): who may edit, listing, typed input coercion,
    and the changes to the `switch`, `mapping` and `user` tables. `available` says
    whether the store answers the operation's queries: a refused query rolls the
    whole operation back, so either all of them are answered or the tables are left
    as they were. */
module Editing {
  import opened Wrappers
  import opened Text
  import opened Patterns
  import opened Models
  import opened Database

  /** `User.id == name`. */
  function HasId(name: string): User -> bool {
    (u: User) => u.id == name
  }

  /** `Switch.id.like(pattern)`. */
  function IdLike(pattern: string): Switch -> bool {
    sw => ColumnLike(sw, Id, pattern)
  }

  /** The two-token mapping filter: each token matches one side of the edge
      (editing.py:347-356 and 380-389). */
  function Links(p0: string, p1: string): Mapping -> bool {
    (m: Mapping) => (Like(p0, m.meraki) || Like(p0, m.catalyst)) && (Like(p1, m.meraki) || Like(p1, m.catalyst))
  }

  /** Either side of the edge matches the pattern (editing.py:212-214). */
  function Mentions(pattern: string): Mapping -> bool {
    (m: Mapping) => Like(pattern, m.meraki) || Like(pattern, m.catalyst)
  }

  /** `User.privilege.like(pattern)`. */
  function PrivilegeLike(pattern: string): User -> bool {
    (u: User) => Like(pattern, u.privilege)
  }

  /** The check `can_user_edit` makes in a session it is given: exactly one record with
      that id, and that record can edit (editing.py:83-89). */
  predicate EditorRecord(users: seq<User>, name: string) {
    var hits := Filter(users, HasId(name));
    |hits| == 1 && hits[0].CanEdit()
  }

  /** `can_user_edit` without a session (editing.py:91-112): no username, or a store
      that refuses, gives False. `None` is the username of a person without a company
      address. */
  predicate CanUserEdit(users: seq<User>, username: Option<string>, available: bool) {
    username.Some? && username.value != "" && available && EditorRecord(users, username.value)
  }

  /** With ids unique, the records with a given id are none or the one that has it. */
  lemma {:induction false} UniqueFilter(users: seq<User>, name: string)
    requires UniqueIds(users)
    ensures forall i :: 0 <= i < |users| && users[i].id == name ==> Filter(users, HasId(name)) == [users[i]]
    ensures (forall i :: 0 <= i < |users| ==> users[i].id != name) ==> Filter(users, HasId(name)) == []
    decreases |users|
  {
    if users != [] {
      UniqueFilter(users[1..], name);
      if users[0].id == name {
        forall j | 0 <= j < |users[1..]|
          ensures users[1..][j].id != name
        {
          assert users[1..][j] == users[j + 1];
        }
        assert Filter(users[1..], HasId(name)) == [];
      }
      forall i | 1 <= i < |users| && users[i].id == name
        ensures Filter(users, HasId(name)) == [users[i]]
      {
        assert users[1..][i - 1] == users[i];
      }
    }
  }

  /** Editing rights (editing.py:81-112, models.py:40-41): False for a missing or empty
      username, and otherwise True exactly when the user has a record whose privilege
      can edit. */
  lemma CanUserEditMeans(users: seq<User>, username: Option<string>, available: bool)
    requires UniqueIds(users)
    ensures CanUserEdit(users, username, available) <==>
      username.Some? && username.value != "" && available &&
      exists i :: 0 <= i < |users| && users[i].id == username.value && users[i].CanEdit()
  {
    if username.Some? {
      UniqueFilter(users, username.value);
    }
  }

  /** The rows on either side of the unique match all fail the filter. */
  lemma OthersRejected<T>(xs: seq<T>, P: T -> bool, i: nat)
    requires i < |xs| && P(xs[i]) && |Filter(xs, P)| == 1
    ensures forall j :: 0 <= j < |xs| && j != i ==> !P(xs[j])
  {
    DeleteUnique(xs, P, i);
    var rest := xs[..i] + xs[i + 1..];
    forall j | 0 <= j < |xs| && j != i
      ensures !P(xs[j])
    {
      if j < i {
        assert rest[j] == xs[j];
      } else {
        assert rest[j - 1] == xs[j];
      }
    }
  }

  /** Where the only row a filter selects sits. */
  method UniqueMatch<T>(xs: seq<T>, P: T -> bool) returns (i: nat)
    requires |Filter(xs, P)| == 1
    ensures i < |xs| && P(xs[i])
    ensures xs[..i] + xs[i + 1..] == Filter(xs, Not(P))
  {
    i := FirstMatch(xs, P);
    if i == |xs| {
      NoneSelected(xs, P);
      assert false;
    }
    DeleteUnique(xs, P, i);
  }

  const NoUserPermission: string := "You do not have permissions to edit allowed users."

  /** The reply of `allow_user_by_id` to a table of users. */
  function AllowReply(users: seq<User>, available: bool, me: Option<string>, username: string): string {
    if available && me.Some? && EditorRecord(users, me.value)
    then "Successfully added " + username + " to the allowed editors list."
    else if available then NoUserPermission
    else ErrorReply
  }

  /** `allow_user_by_id` (editing.py:114-140): an editor replaces whatever record the
      target has with one "editor" record, so a re-allowed admin becomes an editor. */
  method AllowUserById(db: Store, available: bool, me: Option<string>, username: string)
    returns (reply: string)
    requires db.Valid()
    modifies db
    ensures db.Valid()
    ensures db.switches == old(db.switches) && db.mappings == old(db.mappings)
    ensures var granted := available && me.Some? && EditorRecord(old(db.users), me.value);
      (granted ==>
        db.users == Filter(old(db.users), Not(HasId(username))) + [User(username, "editor")] &&
        reply == "Successfully added " + username + " to the allowed editors list.") &&
      (!granted ==>
        db.users == old(db.users) && reply == if available then NoUserPermission else ErrorReply)
    ensures reply == AllowReply(old(db.users), available, me, username)
  {
    if !available {
      return ErrorReply;
    }
    if !(me.Some? && EditorRecord(db.users, me.value)) {
      return NoUserPermission;
    }
    var users := db.users;
    var hits := Filter(users, HasId(username));
    UniqueFilter(users, username);
    if |hits| == 1 {
      var i := UniqueMatch(users, HasId(username));
      users := users[..i] + users[i + 1..];
    } else {
      NoneSelected(users, HasId(username));
    }
    AllowKeepsKeys(db.users, username);
    db.users := users + [User(username, "editor")];
    reply := "Successfully added " + username + " to the allowed editors list.";
  }

  /** After an allow the target has exactly one record, an editor one, and ids stay unique. */
  lemma AllowKeepsKeys(users: seq<User>, name: string)
    requires UniqueIds(users)
    ensures var after := Filter(users, Not(HasId(name))) + [User(name, "editor")];
      UniqueIds(after) && Filter(after, HasId(name)) == [User(name, "editor")] &&
      !User(name, "editor").IsAdmin() && User(name, "editor").CanEdit()
  {
    var kept := Filter(users, Not(HasId(name)));
    var after := kept + [User(name, "editor")];
    KeptIdsUnique(users, Not(HasId(name)));
    assert forall i :: 0 <= i < |kept| ==> kept[i].id != name;
    NoneSelected(kept, HasId(name));
    FilterAppend(kept, [User(name, "editor")], HasId(name));
    assert Lower("editor") == "editor";
  }

  /** Dropping rows keeps the ids unique. */
  lemma {:induction false} KeptIdsUnique(users: seq<User>, P: User -> bool)
    requires UniqueIds(users)
    ensures UniqueIds(Filter(users, P))
    decreases |users|
  {
    if users != [] {
      KeptIdsUnique(users[1..], P);
      var rest := Filter(users[1..], P);
      forall j | 0 <= j < |rest|
        ensures rest[j].id != users[0].id
      {
        FilterMembership(users[1..], P, rest[j]);
        var k :| 0 <= k < |users[1..]| && users[1..][k] == rest[j];
        assert users[k + 1] == rest[j];
      }
    }
  }

  /** The reply of `disallow_user_by_id` to a table of users, in the order of its checks. */
  function DisallowReply(users: seq<User>, available: bool, me: Option<string>, personId: string): string {
    var hits := Filter(users, HasId(personId));
    if !available then ErrorReply
    else if !(me.Some? && EditorRecord(users, me.value)) then NoUserPermission
    else if |hits| != 1 || !hits[0].CanEdit() then "User " + personId + " is not on the editors list."
    else if hits[0].IsAdmin() then "User " + personId + " is an admin and cannot be removed."
    else "Successfully removed " + personId + " from the allowed editors list."
  }

  /** `disallow_user_by_id` (editing.py:142-169): an editor removes an editor, but never
      an admin, and an absent user or a non-editor is reported. */
  method DisallowUserById(db: Store, available: bool, me: Option<string>, personId: string)
    returns (reply: string)
    requires db.Valid()
    modifies db
    ensures db.Valid()
    ensures db.switches == old(db.switches) && db.mappings == old(db.mappings)
    ensures var granted := available && me.Some? && EditorRecord(old(db.users), me.value);
      var hits := Filter(old(db.users), HasId(personId));
      var removes := granted && |hits| == 1 && hits[0].CanEdit() && !hits[0].IsAdmin();
      (removes ==>
        db.users == Filter(old(db.users), Not(HasId(personId))) &&
        reply == "Successfully removed " + personId + " from the allowed editors list.") &&
      (!removes ==> db.users == old(db.users)) &&
      (!available ==> reply == ErrorReply) &&
      (available && !granted ==> reply == NoUserPermission) &&
      (granted && |hits| == 1 && hits[0].IsAdmin() ==>
        reply == "User " + personId + " is an admin and cannot be removed.") &&
      (granted && (|hits| != 1 || !hits[0].CanEdit()) ==>
        reply == "User " + personId + " is not on the editors list.")
    ensures reply == DisallowReply(old(db.users), available, me, personId)
  {
    if !available {
      return ErrorReply;
    }
    if !(me.Some? && EditorRecord(db.users, me.value)) {
      return NoUserPermission;
    }
    var hits := Filter(db.users, HasId(personId));
    if |hits| == 1 {
      if !hits[0].CanEdit() {
        return "User " + personId + " is not on the editors list.";
      }
      if hits[0].IsAdmin() {
        return "User " + personId + " is an admin and cannot be removed.";
      }
      var i := UniqueMatch(db.users, HasId(personId));
      KeptIdsUnique(db.users, Not(HasId(personId)));
      db.users := db.users[..i] + db.users[i + 1..];
      return "Successfully removed " + personId + " from the allowed editors list.";
    }
    return "User " + personId + " is not on the editors list.";
  }

  /** The admins only ever lose their record through an allow, never a disallow. */
  lemma AdminsSurviveDisallow(users: seq<User>, personId: string, u: User)
    requires u in users && u.IsAdmin()
    ensures var hits := Filter(users, HasId(personId));
      (|hits| == 1 && hits[0].CanEdit() && !hits[0].IsAdmin()) ==> u in Filter(users, Not(HasId(personId)))
  {
    FilterMembership(users, HasId(personId), u);
    FilterMembership(users, Not(HasId(personId)), u);
  }

  /** The space-separated tokens of a command's parameters, each stripped. */
  function StrippedTokens(parameters: string): (r: seq<string>)
    ensures |r| == |Split(parameters, ' ')| && |r| >= 1
    ensures forall i :: 0 <= i < |r| ==> r[i] == Strip(Split(parameters, ' ')[i])
  {
    var parts := Split(parameters, ' ');
    seq(|parts|, i requires 0 <= i < |parts| => Strip(parts[i]))
  }

  /** No token holds a space, and none begins or ends with whitespace. */
  lemma TokensUnpadded(parameters: string)
    ensures var r := StrippedTokens(parameters);
      forall i :: 0 <= i < |r| ==> ' ' !in r[i] && (r[i] != [] ==> !IsSpace(r[i][0]) && !IsSpace(r[i][|r[i]| - 1]))
  {
    var parts := Split(parameters, ' ');
    forall i | 0 <= i < |parts|
      ensures ' ' !in Strip(parts[i])
      ensures Strip(parts[i]) != [] ==> !IsSpace(Strip(parts[i])[0]) && !IsSpace(Strip(parts[i])[|Strip(parts[i])| - 1])
    {
      StripWithin(parts[i]);
      StripFront(parts[i]);
      StripBack(parts[i]);
    }
  }

  /** `list_all_switches` (editing.py:171-197): everything, or, with a second token, the
      switches whose id contains it. */
  function ListAllSwitches(t: Tables, available: bool, parameters: string): (r: Result<seq<Switch>, string>)
    ensures r.Failure? <==> !available
    ensures r.Failure? ==> r.error == ErrorReply
    ensures r.Success? ==> |r.value| <= |t.switches|
    ensures r.Success? && |Split(parameters, ' ')| <= 1 ==> r.value == t.switches
  {
    var tokens := StrippedTokens(parameters);
    if !available then Failure(ErrorReply)
    else if |tokens| > 1 then Success(Filter(t.switches, IdLike(Around(tokens[1]))))
    else Success(t.switches)
  }

  /** The list filter is a substring test on the id (editing.py:183-185). */
  lemma ListFilterIsSubstring(t: Tables, parameters: string, sw: Switch)
    requires |StrippedTokens(parameters)| > 1 && Literal(StrippedTokens(parameters)[1])
    ensures var token := StrippedTokens(parameters)[1];
      sw in ListAllSwitches(t, true, parameters).value <==>
        sw in t.switches && sw.Get(Id).Str? && Contains(sw.Get(Id).s, token)
  {
    var token := StrippedTokens(parameters)[1];
    FilterMembership(t.switches, IdLike(Around(token)), sw);
    if sw.Get(Id).Str? {
      AroundMeansContains(token, sw.Get(Id).s);
    }
  }

  /** `list_all_mapping` (editing.py:199-226): everything, or, with a second token, the
      edges that have it in either side. */
  function ListAllMapping(t: Tables, available: bool, parameters: string): (r: Result<seq<Mapping>, string>)
    ensures r.Failure? <==> !available
    ensures r.Failure? ==> r.error == ErrorReply
    ensures r.Success? ==> |r.value| <= |t.mappings|
    ensures r.Success? && |Split(parameters, ' ')| <= 1 ==> r.value == t.mappings
  {
    var tokens := StrippedTokens(parameters);
    if !available then Failure(ErrorReply)
    else if |tokens| > 1 then
      Success(Filter(t.mappings, Mentions(Around(tokens[1]))))
    else Success(t.mappings)
  }

  lemma ListMappingIsSubstring(t: Tables, parameters: string, m: Mapping)
    requires |StrippedTokens(parameters)| > 1 && Literal(StrippedTokens(parameters)[1])
    ensures var token := StrippedTokens(parameters)[1];
      m in ListAllMapping(t, true, parameters).value <==>
        m in t.mappings && (Contains(m.meraki, token) || Contains(m.catalyst, token))
  {
    var token := StrippedTokens(parameters)[1];
    FilterMembership(t.mappings, Mentions(Around(token)), m);
    AroundMeansContains(token, m.meraki);
    AroundMeansContains(token, m.catalyst);
  }

  /** `get_switch_by_id` (editing.py:228-247): the switch when exactly one id matches. */
  function GetSwitchById(t: Tables, available: bool, id: string): (r: Result<Option<Switch>, string>)
    ensures r.Failure? <==> !available
    ensures r.Success? && r.value.Some? ==>
      r.value.value in t.switches && ColumnLike(r.value.value, Id, id) && |Filter(t.switches, IdLike(id))| == 1
    ensures r.Success? && r.value.None? ==> |Filter(t.switches, IdLike(id))| != 1
  {
    var hits := Filter(t.switches, IdLike(id));
    if !available then Failure(ErrorReply)
    else if |hits| == 1 then
      FilterMembership(t.switches, IdLike(id), hits[0]);
      Success(Some(hits[0]))
    else Success(None)
  }

  /** The declared type of a column as `str(column.type)` spells it. */
  function TypeName(ty: ColumnType): string {
    match ty
    case Varchar => "VARCHAR"
    case Integer => "INTEGER"
    case Boolean => "BOOLEAN"
  }

  /** Python's `int(v)`; `None` where it raises `ValueError`. */
  function IntOf(v: Value): Option<int> {
    match v
    case Null => None
    case Bool(b) => Some(if b then 1 else 0)
    case Int(i) => Some(i)
    case Str(s) => ParseInt(s)
  }

  /** The message for a value the column's type cannot take (editing.py:270). */
  function InvalidValue(value: string, k: string, typeName: string): string {
    "'" + value + "' is not valid for attribute " + k + ". Needs to be of type " + typeName
  }

  /** What `sanitise_inputs` makes of one entry (editing.py:250-270). */
  function CoerceEntry(k: string, v: Value): Result<Value, string> {
    var flagged := if v == Str("false") then Bool(false) else if v == Str("true") then Bool(true) else v;
    match ColumnNamed(k)
    case None => Failure("Attribute " + k + " does not exist in models.Switch!")
    case Some(c) =>
      match c.Type()
      case Varchar => Success(Str(Show(v)))
      case Integer =>
        var w := if v == Null || v == Str("") then Int(0) else v;
        (match IntOf(w)
         case Some(i) => Success(Int(i))
         case None => Failure(InvalidValue(Show(w), k, TypeName(c.Type()))))
      case Boolean => Success(flagged)
  }

  /** An entry is refused only for a key that names no column or a value an INTEGER
      column cannot take; an accepted value has its column's type, a VARCHAR a text and
      an INTEGER an integer, and a BOOLEAN column turns `"true"`/`"false"` into a
      boolean (editing.py:251-270). */
  lemma CoercedFitsColumn(k: string, v: Value)
    ensures var r := CoerceEntry(k, v);
      (ColumnNamed(k).None? ==> r.Failure?) &&
      (ColumnNamed(k).Some? && ColumnNamed(k).value.Type() != Integer ==> r.Success?) &&
      (r.Success? ==>
        ColumnNamed(k).Some? &&
        (ColumnNamed(k).value.Type() == Varchar ==> r.value.Str?) &&
        (ColumnNamed(k).value.Type() == Integer ==> r.value.Int?) &&
        (ColumnNamed(k).value.Type() == Boolean && (v == Str("true") || v == Str("false")) ==> r.value.Bool?))
  {
  }

  /** A key that names no column is refused (editing.py:259, 267-268). */
  lemma UnknownKeyRefused(k: string, v: Value)
    requires ColumnNamed(k).None?
    ensures CoerceEntry(k, v) == Failure("Attribute " + k + " does not exist in models.Switch!")
    ensures forall c: Column :: c.Name() != k
  {
    ColumnNamedNone(k);
  }

  /** On a boolean column "true" and "false" become booleans and anything else is kept
      as given (editing.py:253-256). */
  lemma BooleanCoercion(c: Column, v: Value)
    requires c.Type() == Boolean
    ensures CoerceEntry(c.Name(), Str("true")) == Success(Bool(true))
    ensures CoerceEntry(c.Name(), Str("false")) == Success(Bool(false))
    ensures v != Str("true") && v != Str("false") ==> CoerceEntry(c.Name(), v) == Success(v)
  {
    NameRoundTrip(c);
  }

  /** On a text column the value becomes `str()` of what was given, so "true" stays
      text and the boolean True becomes "True" (editing.py:260-261). */
  lemma TextCoercion(c: Column, v: Value, s: string)
    requires c.Type() == Varchar
    ensures CoerceEntry(c.Name(), v) == Success(Str(Show(v)))
    ensures CoerceEntry(c.Name(), Str(s)) == Success(Str(s))
    ensures CoerceEntry(c.Name(), Bool(true)) == Success(Str("True"))
  {
    NameRoundTrip(c);
  }

  /** On an integer column a missing or empty value is 0, and an integer or boolean is
      `int()` of it (editing.py:262-265). */
  lemma IntegerCoercion(c: Column, n: int, b: bool)
    requires c.Type() == Integer
    ensures CoerceEntry(c.Name(), Null) == Success(Int(0))
    ensures CoerceEntry(c.Name(), Str("")) == Success(Int(0))
    ensures CoerceEntry(c.Name(), Int(n)) == Success(Int(n))
    ensures CoerceEntry(c.Name(), Bool(b)) == Success(Int(if b then 1 else 0))
  {
    NameRoundTrip(c);
  }

  /** A text sent for an integer column is `int()` of it, or of 0 when it is empty. */
  lemma IntegerTextEntry(c: Column, s: string)
    requires c.Type() == Integer
    ensures CoerceEntry(c.Name(), Str(s)) ==
      var w := if s == "" then "0" else s;
      match ParseInt(w)
      case Some(i) => Success(Int(i))
      case None => Failure(InvalidValue(w, c.Name(), "INTEGER"))
  {
    NameRoundTrip(c);
    if s == "" {
      assert IntOf(Int(0)) == Some(0);
      ParseIntOfIntToString(0);
      assert IntToString(0) == "0";
    }
  }

  /** On an integer column the text of an integer is that integer (editing.py:265). */
  lemma IntegerTextCoercion(c: Column, n: int)
    requires c.Type() == Integer
    ensures CoerceEntry(c.Name(), Str(IntToString(n))) == Success(Int(n))
  {
    IntegerTextEntry(c, IntToString(n));
    ParseIntOfIntToString(n);
  }

  /** On an integer column "true" is refused with a message naming the value, the
      attribute and the type (editing.py:262-265, 269-270). */
  lemma IntegerRefusesTrue(c: Column)
    requires c.Type() == Integer
    ensures CoerceEntry(c.Name(), Str("true")) == Failure(InvalidValue("true", c.Name(), "INTEGER"))
  {
    IntegerTextEntry(c, "true");
    TrueIsNotAnInteger();
  }

  /** Text that starts with neither a sign, a digit nor a space, and does not end in a
      space, is not an integer. */
  lemma NotAnInteger(s: string)
    requires s != [] && !IsSpace(s[0]) && !IsSpace(s[|s| - 1])
    requires s[0] != '+' && s[0] != '-' && !IsDigit(s[0])
    ensures ParseInt(s) == None
  {
    StripUnpadded(s);
  }

  lemma TrueIsNotAnInteger()
    ensures ParseInt("true") == None
  {
    NotAnInteger("true");
  }

  /** One entry of the loop in `sanitise_inputs` (editing.py:251-270). */
  method CoerceOne(k: string, v: Value) returns (r: Result<Value, string>)
    ensures r == CoerceEntry(k, v)
  {
    var value := v;
    if v == Str("false") {
      value := Bool(false);
    } else if v == Str("true") {
      value := Bool(true);
    }
    var column := ColumnNamed(k);
    if column.None? {
      return Failure("Attribute " + k + " does not exist in models.Switch!");
    }
    var targetType := column.value.Type();
    if targetType == Varchar {
      value := Str(Show(v));
    } else if targetType == Integer {
      var w := v;
      if w == Null || w == Str("") {
        w := Int(0);
      }
      var n := IntOf(w);
      if n.None? {
        return Failure(InvalidValue(Show(w), k, TypeName(targetType)));
      }
      value := Int(n.value);
    }
    return Success(value);
  }

  /** `sanitise_inputs` (editing.py:249-271): the form with every value coerced to its
      column's type, or the message of the first entry that cannot be. */
  method SanitiseInputs(values: seq<(string, Value)>) returns (r: Result<seq<(string, Value)>, string>)
    ensures r.Success? <==> forall i :: 0 <= i < |values| ==> CoerceEntry(values[i].0, values[i].1).Success?
    ensures r.Success? ==>
      |r.value| == |values| &&
      forall i :: 0 <= i < |values| ==> r.value[i] == (values[i].0, CoerceEntry(values[i].0, values[i].1).value)
    ensures r.Failure? ==>
      exists i :: 0 <= i < |values| && FirstRefused(values, i) && r.error == CoerceEntry(values[i].0, values[i].1).error
  {
    var out := values;
    for i := 0 to |values|
      invariant |out| == |values|
      invariant forall j :: 0 <= j < i ==> CoerceEntry(values[j].0, values[j].1).Success?
      invariant forall j :: 0 <= j < i ==> out[j] == (values[j].0, CoerceEntry(values[j].0, values[j].1).value)
      invariant forall j :: i <= j < |values| ==> out[j] == values[j]
    {
      var entry := CoerceOne(values[i].0, values[i].1);
      if entry.Failure? {
        assert FirstRefused(values, i);
        return Failure(entry.error);
      }
      out := out[i := (values[i].0, entry.value)];
    }
    return Success(out);
  }

  /** Entry `i` is the first one that cannot be coerced. */
  predicate FirstRefused(values: seq<(string, Value)>, i: nat)
    requires i < |values|
  {
    CoerceEntry(values[i].0, values[i].1).Failure? &&
    forall j :: 0 <= j < i ==> CoerceEntry(values[j].0, values[j].1).Success?
  }

  /** The value the last entry naming column `c` supplies, else `default`. */
  function AssignedOr(values: seq<(string, Value)>, c: Column, default: Value): Value
    decreases |values|
  {
    if values == [] then default
    else
      var last := values[|values| - 1];
      if ColumnNamed(last.0) == Some(c) then last.1 else AssignedOr(values[..|values| - 1], c, default)
  }

  /** A form's keys are unique, as a dict's are. */
  predicate UniqueKeys(values: seq<(string, Value)>) {
    forall i, j :: 0 <= i < j < |values| ==> values[i].0 != values[j].0
  }

  /** A column no key names keeps its value; a column a key names takes that key's value. */
  lemma {:induction false} AssignedMeans(values: seq<(string, Value)>, c: Column, default: Value)
    requires UniqueKeys(values)
    ensures (forall i :: 0 <= i < |values| ==> values[i].0 != c.Name()) ==> AssignedOr(values, c, default) == default
    ensures forall i :: 0 <= i < |values| && values[i].0 == c.Name() ==> AssignedOr(values, c, default) == values[i].1
    decreases |values|
  {
    if values != [] {
      var init := values[..|values| - 1];
      AssignedMeans(init, c, default);
      var last := values[|values| - 1];
      if ColumnNamed(last.0) == Some(c) {
        assert last.0 == c.Name();
      } else {
        NameRoundTrip(c);
        forall i | 0 <= i < |init| && init[i].0 == c.Name()
          ensures values[i] == init[i]
        {
        }
      }
    }
  }

  /** The loop that sets each supplied attribute on the row's object (editing.py:283-287,
      294-297); keys that are not columns are skipped. */
  method ApplyValues(sw: Switch, values: seq<(string, Value)>) returns (r: Switch)
    ensures forall c :: r.Get(c) == AssignedOr(values, c, sw.Get(c))
  {
    r := sw;
    for i := 0 to |values|
      invariant forall c :: r.Get(c) == AssignedOr(values[..i], c, sw.Get(c))
    {
      var (k, v) := values[i];
      assert values[..i + 1][..i] == values[..i];
      var column := ColumnNamed(k);
      if column.Some? {
        r := r.Set(column.value, v);
      }
    }
    assert values[..|values|] == values;
  }

  /** The outcomes `edit_switch_by_id` reports: `Results.EDIT`, `Results.NEW` or a message. */
  datatype EditResult = Edited | Created | Refused(message: string)

  /** `edit_switch_by_id` (editing.py:273-315): with exactly one matching row, that row
      takes the supplied known attributes and keeps the rest; with none, one new row
      made of the supplied attributes is added; with more, nothing changes. */
  method EditSwitchById(db: Store, available: bool, id: string, values: seq<(string, Value)>)
    returns (r: EditResult)
    modifies db
    ensures db.mappings == old(db.mappings) && db.users == old(db.users)
    ensures var hits := Filter(old(db.switches), IdLike(id));
      (available && |hits| == 1 ==>
        r == Edited && |db.switches| == |old(db.switches)| &&
        (forall j :: 0 <= j < |db.switches| && !IdLike(id)(old(db.switches)[j]) ==> db.switches[j] == old(db.switches)[j]) &&
        (forall j, c :: 0 <= j < |db.switches| && IdLike(id)(old(db.switches)[j]) ==>
          db.switches[j].Get(c) == AssignedOr(values, c, old(db.switches)[j].Get(c)))) &&
      (available && |hits| == 0 ==>
        r == Created && |db.switches| == |old(db.switches)| + 1 &&
        db.switches[..|old(db.switches)|] == old(db.switches) &&
        forall c :: db.switches[|old(db.switches)|].Get(c) == AssignedOr(values, c, Null)) &&
      (!available || |hits| > 1 ==> r == Refused(ErrorReply) && db.switches == old(db.switches))
  {
    if !available {
      return Refused(ErrorReply);
    }
    var hits := Filter(db.switches, IdLike(id));
    if |hits| == 1 {
      var i := UniqueMatch(db.switches, IdLike(id));
      OthersRejected(db.switches, IdLike(id), i);
      var row := ApplyValues(db.switches[i], values);
      db.switches := db.switches[i := row];
      return Edited;
    } else if |hits| == 0 {
      var row := ApplyValues(Blank, values);
      db.switches := db.switches + [row];
      return Created;
    }
    return Refused(ErrorReply);
  }

  /** The reply of `remove_switch_by_id` to a table of switches. */
  function RemoveSwitchReply(switches: seq<Switch>, available: bool, id: string): string {
    if !available then ErrorReply
    else if |Filter(switches, IdLike(id))| == 1 then "Successfully removed **" + id + "** from the database."
    else "Could not find **" + id + "** in the database."
  }

  /** `remove_switch_by_id` (editing.py:317-338): deletes only a unique match. */
  method RemoveSwitchById(db: Store, available: bool, id: string) returns (reply: string)
    modifies db
    ensures db.mappings == old(db.mappings) && db.users == old(db.users)
    ensures var hits := Filter(old(db.switches), IdLike(id));
      (available && |hits| == 1 ==>
        db.switches == Filter(old(db.switches), Not(IdLike(id))) &&
        reply == "Successfully removed **" + id + "** from the database.") &&
      (available && |hits| != 1 ==>
        db.switches == old(db.switches) && reply == "Could not find **" + id + "** in the database.") &&
      (!available ==> db.switches == old(db.switches) && reply == ErrorReply)
    ensures reply == RemoveSwitchReply(old(db.switches), available, id)
  {
    if !available {
      return ErrorReply;
    }
    var hits := Filter(db.switches, IdLike(id));
    if |hits| == 1 {
      var i := UniqueMatch(db.switches, IdLike(id));
      db.switches := db.switches[..i] + db.switches[i + 1..];
      return "Successfully removed **" + id + "** from the database.";
    }
    return "Could not find **" + id + "** in the database.";
  }

  /** The reply of `remove_mapping_by_id` to a table of mappings. */
  function RemoveMappingReply(mappings: seq<Mapping>, available: bool, parameters: string): string {
    var tokens := Split(parameters, ' ');
    if |tokens| != 2 then "Please only supply 2 keys in the format */remove-mapping PK PK*"
    else if !available then ErrorReply
    else if |Filter(mappings, Links(tokens[0], tokens[1]))| == 1
    then "Successfully removed mapping **" + tokens[0] + "<=>" + tokens[1] + "** from the database."
    else "Could not find **" + tokens[0] + "<=>" + tokens[1] + "** in the database."
  }

  /** `remove_mapping_by_id` (editing.py:340-371): exactly two tokens, not stripped; deletes
      only when a single edge links them. */
  method RemoveMappingById(db: Store, available: bool, parameters: string) returns (reply: string)
    modifies db
    ensures db.switches == old(db.switches) && db.users == old(db.users)
    ensures var tokens := Split(parameters, ' ');
      (|tokens| != 2 ==>
        db.mappings == old(db.mappings) && reply == "Please only supply 2 keys in the format */remove-mapping PK PK*") &&
      (|tokens| == 2 && !available ==> db.mappings == old(db.mappings) && reply == ErrorReply) &&
      (|tokens| == 2 && available ==>
        var links := Links(tokens[0], tokens[1]);
        var hits := Filter(old(db.mappings), links);
        (|hits| == 1 ==>
          db.mappings == Filter(old(db.mappings), Not(links)) &&
          reply == "Successfully removed mapping **" + tokens[0] + "<=>" + tokens[1] + "** from the database.") &&
        (|hits| != 1 ==>
          db.mappings == old(db.mappings) &&
          reply == "Could not find **" + tokens[0] + "<=>" + tokens[1] + "** in the database."))
    ensures reply == RemoveMappingReply(old(db.mappings), available, parameters)
  {
    var tokens := Split(parameters, ' ');
    if |tokens| != 2 {
      return "Please only supply 2 keys in the format */remove-mapping PK PK*";
    }
    if !available {
      return ErrorReply;
    }
    var hits := Filter(db.mappings, Links(tokens[0], tokens[1]));
    if |hits| == 1 {
      var i := UniqueMatch(db.mappings, Links(tokens[0], tokens[1]));
      db.mappings := db.mappings[..i] + db.mappings[i + 1..];
      return "Successfully removed mapping **" + tokens[0] + "<=>" + tokens[1] + "** from the database.";
    }
    return "Could not find **" + tokens[0] + "<=>" + tokens[1] + "** in the database.";
  }

  /** The edge `add_mapping_by_id` inserts: the first token is the Meraki side exactly when
      it starts with m/M (editing.py:395-402). */
  function NewEdge(p0: string, p1: string): (e: Mapping)
    requires p0 != ""
    ensures LowerChar(p0[0]) == 'm' ==> e.meraki == p0 && e.catalyst == p1
    ensures LowerChar(p0[0]) != 'm' ==> e.meraki == p1 && e.catalyst == p0
    ensures multiset{e.catalyst, e.meraki} == multiset{p0, p1}
  {
    if LowerChar(p0[0]) == 'm' then Mapping(catalyst := p1, meraki := p0) else Mapping(catalyst := p0, meraki := p1)
  }

  /** The outcome of `add_mapping_by_id` on a table of mappings. */
  function AddMappingOutcome(mappings: seq<Mapping>, available: bool, parameters: string): Outcome<string> {
    var tokens := StrippedTokens(parameters);
    if |tokens| != 2 then Returns("Please only supply 2 keys in the format */add-mapping PK PK*")
    else if !available then Returns(ErrorReply)
    else if Filter(mappings, Links(tokens[0], tokens[1])) != []
    then Returns("Mapping **" + tokens[0] + "<=>" + tokens[1] + "** already exists in the database.")
    else if tokens[0] == "" then Raises("IndexError")
    else Returns("Successfully added mapping **" + tokens[0] + "<=>" + tokens[1] + "** to the database.")
  }

  /** `add_mapping_by_id` (editing.py:373-415): exactly two stripped tokens; an edge
      already linking them is reported; otherwise one edge is added. An empty first token
      raises `IndexError` at `parameters[0][0]`, which nobody catches. */
  method AddMappingById(db: Store, available: bool, parameters: string) returns (r: Outcome<string>)
    modifies db
    ensures db.switches == old(db.switches) && db.users == old(db.users)
    ensures var tokens := StrippedTokens(parameters);
      (|tokens| != 2 ==>
        db.mappings == old(db.mappings) && r == Returns("Please only supply 2 keys in the format */add-mapping PK PK*")) &&
      (|tokens| == 2 && !available ==> db.mappings == old(db.mappings) && r == Returns(ErrorReply)) &&
      (|tokens| == 2 && available ==>
        var exists_ := Filter(old(db.mappings), Links(tokens[0], tokens[1])) != [];
        (exists_ ==>
          db.mappings == old(db.mappings) &&
          r == Returns("Mapping **" + tokens[0] + "<=>" + tokens[1] + "** already exists in the database.")) &&
        (!exists_ && tokens[0] == "" ==> db.mappings == old(db.mappings) && r == Raises("IndexError")) &&
        (!exists_ && tokens[0] != "" ==>
          db.mappings == old(db.mappings) + [NewEdge(tokens[0], tokens[1])] &&
          r == Returns("Successfully added mapping **" + tokens[0] + "<=>" + tokens[1] + "** to the database.")))
    ensures r == AddMappingOutcome(old(db.mappings), available, parameters)
  {
    var tokens := StrippedTokens(parameters);
    if |tokens| != 2 {
      r := Returns("Please only supply 2 keys in the format */add-mapping PK PK*");
    } else if !available {
      r := Returns(ErrorReply);
    } else {
      var hits := Filter(db.mappings, Links(tokens[0], tokens[1]));
      if |hits| > 0 {
        r := Returns("Mapping **" + tokens[0] + "<=>" + tokens[1] + "** already exists in the database.");
      } else if tokens[0] == "" {
        r := Raises("IndexError");
      } else {
        var meraki, catalyst;
        if LowerChar(tokens[0][0]) == 'm' {
          meraki, catalyst := tokens[0], tokens[1];
        } else {
          meraki, catalyst := tokens[1], tokens[0];
        }
        db.mappings := db.mappings + [Mapping(catalyst := catalyst, meraki := meraki)];
        r := Returns("Successfully added mapping **" + tokens[0] + "<=>" + tokens[1] + "** to the database.");
      }
    }
  }

  /** An added edge links its own tokens, so adding the same pair again is reported as a
      duplicate and inserts nothing (editing.py:391-392). */
  lemma AddedEdgeIsDetected(edges: seq<Mapping>, p0: string, p1: string)
    requires p0 != ""
    ensures Filter(edges + [NewEdge(p0, p1)], Links(p0, p1)) != []
  {
    LikeSelf(p0);
    LikeSelf(p1);
    FilterAppend(edges, [NewEdge(p0, p1)], Links(p0, p1));
  }
  /** `get_admin_users` (editing.py:55-79): `privilege LIKE 'admin'`, which, with no
      wildcard in the pattern, is the privilege "admin" exactly. */
  function GetAdminUsers(t: Tables, available: bool): (r: Option<seq<User>>)
    ensures r.Some? <==> available
  {
    if available then Some(Filter(t.users, PrivilegeLike("admin"))) else None
  }

  /** The admins the store lists are exactly the records whose privilege is "admin",
      in table order; each of them passes `is_admin`. */
  lemma AdminUsersAreAdmins(t: Tables, u: User)
    ensures u in GetAdminUsers(t, true).value <==> u in t.users && u.privilege == "admin"
    ensures u in GetAdminUsers(t, true).value ==> u.IsAdmin() && u.CanEdit()
  {
    FilterMembership(t.users, PrivilegeLike("admin"), u);
    LikeLiteral("admin", u.privilege);
    assert Lower("admin") == "admin";
  }
}
