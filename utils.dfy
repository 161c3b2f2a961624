/** The reply builders and the username lookup (utils.py): the bulleted list replies,
    the facts of a switch card, the access request sent to the admins, and the mapping
    from a Webex person to the company username. Webex directory results are handed in
    as values. */
module Utils {
  import opened Wrappers
  import opened Text
  import opened Models
  import opened Database
  import opened Editing

  /** A Webex directory entry, as much of it as the bot reads. */
  datatype Person = Person(id: string, displayName: string, emails: seq<string>)

  const CompanyDomain: string := "@cisco.com"

  /** The first company address among `emails`. */
  function CompanyEmail(emails: seq<string>): (r: Option<string>)
    ensures r.Some? ==> r.value in emails && Contains(r.value, CompanyDomain)
    ensures r.None? ==> forall j :: 0 <= j < |emails| ==> !Contains(emails[j], CompanyDomain)
    decreases |emails|
  {
    if emails == [] then None
    else if Contains(emails[0], CompanyDomain) then Some(emails[0])
    else CompanyEmail(emails[1..])
  }

  /** The username `person_id_to_username` finds: the part before `@` of the first company
      address of the first listed person with that id who has one. */
  function UsernameOf(persons: seq<Person>, personId: string): (r: Option<string>)
    ensures r.Some? ==> '@' !in r.value
    decreases |persons|
  {
    if persons == [] then None
    else if persons[0].id == personId && CompanyEmail(persons[0].emails).Some? then
      Some(Split(CompanyEmail(persons[0].emails).value, '@')[0])
    else UsernameOf(persons[1..], personId)
  }

  /** `person_id_to_username` (utils.py:28-36): the nested search with its early return. */
  method PersonIdToUsername(persons: seq<Person>, personId: string) returns (username: Option<string>)
    ensures username == UsernameOf(persons, personId)
  {
    for i := 0 to |persons|
      invariant UsernameOf(persons, personId) == UsernameOf(persons[i..], personId)
    {
      assert persons[i..][1..] == persons[i + 1..];
      if persons[i].id == personId {
        var emails := persons[i].emails;
        for j := 0 to |emails|
          invariant CompanyEmail(emails) == CompanyEmail(emails[j..])
        {
          assert emails[j..][1..] == emails[j + 1..];
          if Contains(emails[j], CompanyDomain) {
            return Some(Split(emails[j], '@')[0]);
          }
        }
      }
    }
    assert persons[|persons|..] == [];
    return None;
  }

  /** A username is found exactly when some listed person with that id has a company
      address, and it is then the part of such an address before its first `@`
      (utils.py:28-36). */
  lemma {:induction false} UsernameMeans(persons: seq<Person>, personId: string)
    ensures UsernameOf(persons, personId).None? <==>
      forall i, j :: 0 <= i < |persons| && persons[i].id == personId && 0 <= j < |persons[i].emails| ==>
        !Contains(persons[i].emails[j], CompanyDomain)
    ensures UsernameOf(persons, personId).Some? ==>
      var u := UsernameOf(persons, personId).value;
      '@' !in u &&
      exists i, j :: 0 <= i < |persons| && persons[i].id == personId && 0 <= j < |persons[i].emails| &&
        Contains(persons[i].emails[j], CompanyDomain) && StartsWith(persons[i].emails[j], u + "@")
    decreases |persons|
  {
    if persons != [] {
      UsernameMeans(persons[1..], personId);
      forall i | 1 <= i < |persons|
        ensures persons[i] == persons[1..][i - 1]
      {
      }
      var found := CompanyEmail(persons[0].emails);
      if persons[0].id == personId && found.Some? {
        var e := found.value;
        var u := Split(e, '@')[0];
        var j :| 0 <= j < |persons[0].emails| && persons[0].emails[j] == e;
        ContainsFirst(e, CompanyDomain);
        SplitHead(e, '@');
        assert e[..|u| + 1] == u + "@";
      }
    }
  }

  /** `"- " + item + "  \n"` for every item, in order. */
  function Bullets(items: seq<string>): string
    decreases |items|
  {
    if items == [] then []
    else Bullets(items[..|items| - 1]) + "- " + items[|items| - 1] + "  \n"
  }

  /** The accumulating loop of the list replies: one bullet per item after `header`. */
  method BulletsAfter(header: string, items: seq<string>) returns (text: string)
    ensures text == header + Bullets(items)
  {
    text := header;
    for i := 0 to |items|
      invariant text == header + Bullets(items[..i])
    {
      assert items[..i + 1][..i] == items[..i];
      text := text + "- " + items[i] + "  \n";
    }
    assert items[..|items|] == items;
  }

  /** The accumulate-then-strip body of the list replies (utils.py:92-97, 101-106). */
  method BulletList(header: string, items: seq<string>) returns (text: string)
    ensures text == Strip(header + Bullets(items))
  {
    var response := BulletsAfter(header, items);
    text := Strip(response);
  }

  /** The strip in a list reply removes exactly the blank lines after the title when the
      list is empty, and exactly the last item's trailing `"  \n"` otherwise. */
  lemma BulletListShape(title: string, items: seq<string>)
    requires title != [] && !IsSpace(title[0]) && !IsSpace(title[|title| - 1])
    requires items != [] ==> var last := items[|items| - 1]; last != [] && !IsSpace(last[|last| - 1])
    ensures items == [] ==> Strip(title + "\n\n" + Bullets(items)) == title
    ensures items != [] ==>
      Strip(title + "\n\n" + Bullets(items)) ==
        title + "\n\n" + Bullets(items[..|items| - 1]) + "- " + items[|items| - 1]
  {
    if items == [] {
      assert title + "\n\n" + Bullets(items) == title + "\n\n";
      StripKeepsFront(title, "\n\n");
    } else {
      var s := title + "\n\n" + Bullets(items[..|items| - 1]) + "- " + items[|items| - 1];
      assert title + "\n\n" + Bullets(items) == s + "  \n";
      StripKeepsFront(s, "  \n");
    }
  }

  /** The first line of the switch list reply, with its count. */
  function SwitchesTitle(n: nat): string {
    "**The following " + NatToString(n) + " switches are in the database:**"
  }

  /** The first line of the mapping list reply, with its count. */
  function MappingsTitle(n: nat): string {
    "**The following " + NatToString(n) + " mappings are in the database:**"
  }

  /** `str(switch.id)` for each switch, in order. */
  function SwitchIds(switches: seq<Switch>): (r: seq<string>)
    ensures |r| == |switches| && forall i :: 0 <= i < |r| ==> r[i] == Show(switches[i].Get(Id))
  {
    seq(|switches|, i requires 0 <= i < |switches| => Show(switches[i].Get(Id)))
  }

  /** `"catalyst <=> meraki"` for each mapping, in order. */
  function EdgeTexts(mappings: seq<Mapping>): (r: seq<string>)
    ensures |r| == |mappings| && forall i :: 0 <= i < |r| ==> r[i] == mappings[i].catalyst + " <=> " + mappings[i].meraki
  {
    seq(|mappings|, i requires 0 <= i < |mappings| => mappings[i].catalyst + " <=> " + mappings[i].meraki)
  }

  /** `generate_switches_response` (utils.py:90-97). */
  method GenerateSwitchesResponse(switches: seq<Switch>) returns (text: string)
    ensures text == Strip(SwitchesTitle(|switches|) + "\n\n" + Bullets(SwitchIds(switches)))
  {
    text := BulletList(SwitchesTitle(|switches|) + "\n\n", SwitchIds(switches));
  }

  /** `generate_mapping_response` (utils.py:99-106). */
  method GenerateMappingResponse(mappings: seq<Mapping>) returns (text: string)
    ensures text == Strip(MappingsTitle(|mappings|) + "\n\n" + Bullets(EdgeTexts(mappings)))
  {
    text := BulletList(MappingsTitle(|mappings|) + "\n\n", EdgeTexts(mappings));
  }

  lemma TitleEnds(middle: string, tail: string)
    requires tail != [] && tail[|tail| - 1] == '*'
    ensures var t := "**The following " + middle + tail; t != [] && t[0] == '*' && t[|t| - 1] == '*'
  {
  }

  /** An empty table gives the title alone, and otherwise the reply is the title, a blank
      line and one bullet per switch id, in table order, with only the last bullet's
      trailing spaces and newline removed (utils.py:92-97). */
  lemma SwitchesResponseShape(switches: seq<Switch>)
    requires switches != [] ==>
      var last := Show(switches[|switches| - 1].Get(Id)); last != [] && !IsSpace(last[|last| - 1])
    ensures var reply := Strip(SwitchesTitle(|switches|) + "\n\n" + Bullets(SwitchIds(switches)));
      (switches == [] ==> reply == SwitchesTitle(0)) &&
      (switches != [] ==>
        reply == SwitchesTitle(|switches|) + "\n\n" + Bullets(SwitchIds(switches)[..|switches| - 1]) + "- " +
          Show(switches[|switches| - 1].Get(Id)))
  {
    TitleEnds(NatToString(|switches|), " switches are in the database:**");
    BulletListShape(SwitchesTitle(|switches|), SwitchIds(switches));
  }

  /** The same for the mapping list: one `catalyst <=> meraki` bullet per edge, in table
      order (utils.py:101-106). */
  lemma MappingResponseShape(mappings: seq<Mapping>)
    requires mappings != [] ==>
      var last := mappings[|mappings| - 1].meraki; last != [] && !IsSpace(last[|last| - 1])
    ensures var reply := Strip(MappingsTitle(|mappings|) + "\n\n" + Bullets(EdgeTexts(mappings)));
      (mappings == [] ==> reply == MappingsTitle(0)) &&
      (mappings != [] ==>
        var last := mappings[|mappings| - 1];
        reply == MappingsTitle(|mappings|) + "\n\n" + Bullets(EdgeTexts(mappings)[..|mappings| - 1]) + "- " +
          last.catalyst + " <=> " + last.meraki)
  {
    TitleEnds(NatToString(|mappings|), " mappings are in the database:**");
    var items := EdgeTexts(mappings);
    if mappings != [] {
      var last := mappings[|mappings| - 1];
      assert items[|items| - 1] == last.catalyst + " <=> " + last.meraki;
    }
    BulletListShape(MappingsTitle(|mappings|), items);
  }

  /** The facts of a switch card: `(label, value)` for each column among `cols` whose
      value is truthy, in order. */
  function FactsOf(sw: Switch, cols: seq<Column>): (r: seq<(string, Value)>)
    ensures |r| <= |cols|
    decreases |cols|
  {
    if cols == [] then []
    else
      var last := cols[|cols| - 1];
      FactsOf(sw, cols[..|cols| - 1]) + if Truthy(sw.Get(last)) then [(last.Label(), sw.Get(last))] else []
  }

  /** The fact loop of `generate_model_response` (utils.py:72-76). */
  method ModelFacts(sw: Switch) returns (facts: seq<(string, Value)>)
    ensures facts == FactsOf(sw, Columns)
  {
    facts := [];
    for i := 0 to |Columns|
      invariant facts == FactsOf(sw, Columns[..i])
    {
      assert Columns[..i + 1][..i] == Columns[..i];
      var c := Columns[i];
      var value := sw.Get(c);
      if Truthy(value) {
        facts := facts + [(c.Label(), value)];
      }
    }
    assert Columns[..|Columns|] == Columns;
  }

  /** A card lists a column's fact exactly when its value is truthy: every fact is a
      listed column's label with its truthy value, and every truthy column has one. */
  lemma {:induction false} FactsMeans(sw: Switch, cols: seq<Column>)
    ensures forall c :: c in cols && Truthy(sw.Get(c)) ==> (c.Label(), sw.Get(c)) in FactsOf(sw, cols)
    ensures forall f :: f in FactsOf(sw, cols) ==>
      Truthy(f.1) && exists c :: c in cols && f == (c.Label(), sw.Get(c))
    decreases |cols|
  {
    if cols != [] {
      var init := cols[..|cols| - 1];
      var last := cols[|cols| - 1];
      FactsMeans(sw, init);
      assert cols == init + [last];
      forall f | f in FactsOf(sw, cols)
        ensures Truthy(f.1) && exists c :: c in cols && f == (c.Label(), sw.Get(c))
      {
        if f in FactsOf(sw, init) {
          var c :| c in init && f == (c.Label(), sw.Get(c));
          assert c in cols;
        } else {
          assert f == (last.Label(), sw.Get(last));
        }
      }
    }
  }

  /** The card and the text form disagree on the text "null": the card lists it, while
      `__repr__` leaves it out (utils.py:75 against models.py:129). */
  lemma NullTextOnCardOnly(sw: Switch, c: Column)
    requires sw.Get(c) == Str("null")
    ensures (c.Label(), Str("null")) in FactsOf(sw, Columns)
    ensures c !in ShownColumns(sw, Columns)
  {
    ColumnListed(c);
    FactsMeans(sw, Columns);
    ShownMembership(sw, Columns, c);
  }

  /** Python's f-string of an optional text. */
  function ShowName(name: Option<string>): string {
    match name
    case None => "None"
    case Some(s) => s
  }

  /** The access request text (utils.py:200-204); an empty reason reads "None". */
  function AccessRequest(displayName: string, username: Option<string>, reason: string): string {
    var shown := if reason == "" then "None" else reason;
    displayName + " is requesting access for reason: " + shown +
      "\n\nGrant access with command '/allow " + ShowName(username) + "'"
  }

  /** `generate_user_access_request` (utils.py:192-208): the messages sent, one per admin and
      in table order, each to the admin's company address. A store that refused the admin
      query leaves `False` to iterate, which raises `TypeError`. */
  method UserAccessRequest(admins: Option<seq<User>>, displayName: string, username: Option<string>, reason: string)
    returns (r: Outcome<seq<(string, string)>>)
    ensures admins.None? <==> r.Raises?
    ensures r.Raises? ==> r.exception == "TypeError"
    ensures r.Returns? ==>
      |r.value| == |admins.value| &&
      forall i :: 0 <= i < |r.value| ==>
        r.value[i] == (admins.value[i].id + CompanyDomain, AccessRequest(displayName, username, reason))
  {
    if admins.None? {
      return Raises("TypeError");
    }
    var parameters := reason;
    if parameters == "" {
      parameters := "None";
    }
    var message := displayName + " is requesting access for reason: " + parameters +
      "\n\nGrant access with command '/allow " + ShowName(username) + "'";
    var sends: seq<(string, string)> := [];
    for i := 0 to |admins.value|
      invariant |sends| == i
      invariant forall j :: 0 <= j < i ==> sends[j] == (admins.value[j].id + CompanyDomain, message)
    {
      sends := sends + [(admins.value[i].id + CompanyDomain, message)];
    }
    return Returns(sends);
  }

  /** Every admin the store lists receives the request, and nobody else does. */
  lemma RequestReachesAdmins(t: Tables, displayName: string, username: Option<string>, reason: string,
                             sends: seq<(string, string)>, u: User)
    requires |sends| == |GetAdminUsers(t, true).value|
    requires forall i :: 0 <= i < |sends| ==>
      sends[i] == (GetAdminUsers(t, true).value[i].id + CompanyDomain, AccessRequest(displayName, username, reason))
    ensures u in t.users && u.privilege == "admin" ==>
      (u.id + CompanyDomain, AccessRequest(displayName, username, reason)) in sends
    ensures forall i :: 0 <= i < |sends| ==> RecipientIsAdmin(t, sends[i].0)
  {
    var admins := GetAdminUsers(t, true).value;
    AdminUsersAreAdmins(t, u);
    if u in t.users && u.privilege == "admin" {
      var i :| 0 <= i < |admins| && admins[i] == u;
      assert sends[i] == (u.id + CompanyDomain, AccessRequest(displayName, username, reason));
    }
    forall i | 0 <= i < |sends|
      ensures RecipientIsAdmin(t, sends[i].0)
    {
      var a := admins[i];
      AdminUsersAreAdmins(t, a);
      assert a in t.users && a.privilege == "admin" && sends[i].0 == a.id + CompanyDomain;
    }
  }

  /** `address` is the company address of an admin record. */
  predicate RecipientIsAdmin(t: Tables, address: string) {
    exists a :: a in t.users && a.privilege == "admin" && address == a.id + CompanyDomain
  }
}
