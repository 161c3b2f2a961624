/** The chat front end (bot.py): parsing a slash command and gating the editor commands,
    the reply to a resolved model question, the Dialogflow session id, and the handling
    of an incoming message (mention stripping, routing, halving an over-long reply).
    Webex and Dialogflow calls become parameters and results. */
module Bot {
  import opened Wrappers
  import opened Text
  import opened Models
  import opened Database
  import opened Conversion
  import opened Editing
  import opened Utils

  // ---------------------------------------------------------------------------
  // Commands

  /** The command word: the first space-separated token of the trimmed text without its
      first character (bot.py:52). */
  function CommandType(command: string): (r: string)
    ensures ' ' !in r
  {
    var token := Split(Strip(command), ' ')[0];
    if token == [] then [] else token[1..]
  }

  /** The parameters: everything after the first space of the trimmed text, or `""` when
      there is none (bot.py:53-57). */
  function Parameters(command: string): (r: string)
    ensures r == [] <==> ' ' !in Strip(command)
    ensures r != [] ==>
      var s := Strip(command);
      |r| < |s| && r == s[|s| - |r|..] && s[|s| - |r| - 1] == ' ' && ' ' !in s[..|s| - |r| - 1]
  {
    var s := Strip(command);
    StripBack(command);
    AfterFirst(s, ' ');
    var head := Split(s, ' ')[0];
    if |head| < |s| then s[|head| + 1..] else []
  }

  /** The trimmed command is its first character, then the command word, then, if it
      holds a space, a space and the parameters (bot.py:52-57). */
  lemma CommandReassembles(command: string)
    requires Strip(command) != []
    ensures var s := Strip(command);
      (' ' in s ==> s == [s[0]] + CommandType(command) + " " + Parameters(command)) &&
      (' ' !in s ==> s == [s[0]] + CommandType(command) && Parameters(command) == [])
  {
    var s := Strip(command);
    StripFront(command);
    SplitHead(s, ' ');
    var head := Split(s, ' ')[0];
    if ' ' in s {
      assert s == s[..|head|] + [s[|head|]] + s[|head| + 1..];
    } else {
      assert head == s;
    }
  }

  /** A stripped command word followed by a space and parameters that do not end in
      whitespace splits back into the word and those parameters. */
  lemma ParseAround(w: string, parameters: string)
    requires w != [] && forall i :: 0 <= i < |w| ==> !IsSpace(w[i])
    requires parameters == [] || !IsSpace(parameters[|parameters| - 1])
    ensures Split(Strip(w + [' '] + parameters), ' ')[0] == w && Parameters(w + [' '] + parameters) == parameters
    ensures Split(Strip(w), ' ')[0] == w && Parameters(w) == []
  {
    assert ' ' !in w;
    SplitWithoutSeparator(w, ' ');
    StripUnpadded(w);
    var c := w + [' '] + parameters;
    SplitAround(w, ' ', parameters);
    if parameters == [] {
      assert c == w + [' '];
      assert LStrip(c) == c;
      RStripTrailing(w, [' ']);
      assert RStrip(w) == w;
      assert Strip(c) == w;
    } else {
      StripUnpadded(c);
    }
  }

  /** A command written as `/word parameters` parses back into that word and those
      parameters when the word holds no whitespace and the parameters do not end in it. */
  lemma ParseCommandOf(word: string, parameters: string)
    requires forall i :: 0 <= i < |word| ==> !IsSpace(word[i])
    requires parameters == [] || !IsSpace(parameters[|parameters| - 1])
    ensures CommandType("/" + word + " " + parameters) == word
    ensures Parameters("/" + word + " " + parameters) == parameters
    ensures CommandType("/" + word) == word && Parameters("/" + word) == []
  {
    var w := ['/'] + word;
    assert "/" + word == w;
    assert "/" + word + " " + parameters == w + [' '] + parameters;
    ParseAround(w, parameters);
    assert w[1..] == word;
  }

  /** The handlers of `handle_command`; the word `list` picks one by its parameters. */
  datatype Command =
    | Help | Info | ListSwitches | ListMappings | ListUsers | ListOther
    | Edit | AddSwitch | RemoveSwitch | AddMapping | RemoveMapping
    | Allow | Disallow | Request | Export | Import | Unrecognised

  /** The branch of `handle_command` a command word and its parameters take
      (bot.py:62-128): for `list`, "switch" or no parameters wins over "map", and "map"
      over "user". */
  function Classify(word: string, parameters: string): (r: Command)
    ensures Listing(r) <==> word == "list"
    ensures !Listing(r) && !r.Unrecognised? ==> Word(r) == word
  {
    if word == "help" then Help
    else if word == "info" then Info
    else if word == "list" then
      if Contains(parameters, "switch") || parameters == "" then ListSwitches
      else if Contains(parameters, "map") then ListMappings
      else if Contains(parameters, "user") then ListUsers
      else ListOther
    else if word == "edit" then Edit
    else if word == "add-switch" then AddSwitch
    else if word == "remove-switch" then RemoveSwitch
    else if word == "add-mapping" then AddMapping
    else if word == "remove-mapping" then RemoveMapping
    else if word == "allow" then Allow
    else if word == "disallow" then Disallow
    else if word == "request" then Request
    else if word == "export" then Export
    else if word == "import" then Import
    else Unrecognised
  }

  /** The word that selects a handler; `""` selects none. */
  function Word(c: Command): string {
    match c
    case Help => "help"
    case Info => "info"
    case ListSwitches => "list"
    case ListMappings => "list"
    case ListUsers => "list"
    case ListOther => "list"
    case Edit => "edit"
    case AddSwitch => "add-switch"
    case RemoveSwitch => "remove-switch"
    case AddMapping => "add-mapping"
    case RemoveMapping => "remove-mapping"
    case Allow => "allow"
    case Disallow => "disallow"
    case Request => "request"
    case Export => "export"
    case Import => "import"
    case Unrecognised => ""
  }

  predicate Listing(c: Command) {
    c.ListSwitches? || c.ListMappings? || c.ListUsers? || c.ListOther?
  }

  /** Each handler other than `list` is reached by its word whatever the parameters, a
      word reaches a handler exactly when it is one of the handlers' words, and `list`
      picks its handler by the parameters (bot.py:62-128). */
  lemma ClassifyMeans(c: Command, word: string, parameters: string)
    ensures !Listing(c) && !c.Unrecognised? ==> Classify(Word(c), parameters) == c
    ensures Classify(word, parameters).Unrecognised? <==> forall d: Command :: !d.Unrecognised? ==> Word(d) != word
    ensures Classify("list", parameters).ListSwitches? <==> Contains(parameters, "switch") || parameters == ""
    ensures Classify("list", parameters).ListMappings? <==>
      !Contains(parameters, "switch") && parameters != "" && Contains(parameters, "map")
  {
    if Classify(word, parameters).Unrecognised? {
      forall d: Command | !d.Unrecognised?
        ensures Word(d) != word
      {
        match d
        case _ =>
      }
    } else {
      var d := Classify(word, parameters);
      assert Word(d) == word;
    }
  }

  /** The five handlers that first ask `can_user_edit` (bot.py:86-114). */
  predicate EditorOnly(c: Command) {
    c.Edit? || c.AddSwitch? || c.RemoveSwitch? || c.AddMapping? || c.RemoveMapping?
  }

  /** The handlers that may change a table. */
  predicate Changes(c: Command) {
    c.RemoveSwitch? || c.AddMapping? || c.RemoveMapping? || c.Allow? || c.Disallow?
  }

  /** The adaptive cards the bot attaches. Only the model card's facts are modelled;
      the edit and add forms are given by the switch they show. */
  datatype Card =
    | ModelCard(original: Option<string>, sw: Switch, facts: seq<(string, Value)>)
    | EditForm(sw: Switch)
    | AddForm

  /** What `handle_command` returns: a text, one of the two help texts, a card, the
      approved-users listing (built from Webex lookups, left out), or `None`. */
  datatype Reply =
    | Text(text: string)
    | HelpText(restricted: bool)
    | Attachment(card: Card)
    | ApprovedUsers(users: seq<User>)
    | NoReply

  const NoPermission: string := "Sorry, you don't have permission to do that."
  const NotImplemented: string := "This feature is not yet implemented."
  const NotRecognised: string := "Unrecognised command!\n\nSee /help for a list of available commands."
  const NoEquivalentReply: string := "Sorry, I couldn't find an equivalent switch for that."

  function NoSuchKey(parameters: string): string {
    "Cannot find switch with key " + parameters + "."
  }

  /** The card of `generate_model_response`: the facts of every truthy column. */
  method ModelResponse(sw: Switch, original: Option<string>) returns (card: Card)
    ensures card == ModelCard(original, sw, FactsOf(sw, Columns))
  {
    var facts := ModelFacts(sw);
    card := ModelCard(original, sw, facts);
  }

  /** The handlers that change no table (bot.py:62-99, 119-128): `t` is the store; `gate`
      says whether it answers the session `can_user_edit` opens for itself
      (editing.py:94-112) and `available` whether it answers the handler's own session;
      `me` is the sender's username. An editor command from someone who cannot edit gets
      the no-permission reply before any lookup. A store that refuses the handler leaves
      an error text where a row or a list of rows is expected, which the reply builders
      then fail on. */
  method AnswerCommand(t: Tables, gate: bool, available: bool, me: Option<string>, displayName: string,
                       c: Command, parameters: string)
    returns (r: Outcome<Reply>, sends: seq<(string, string)>)
    requires !Changes(c)
    ensures c != Request ==> sends == []
    ensures var editor := CanUserEdit(t.users, me, gate);
      (EditorOnly(c) && !editor ==> r == Returns(Text(NoPermission))) &&
      (c == Help ==> r == Returns(HelpText(!editor))) &&
      (c == AddSwitch && editor ==> r == Returns(Attachment(AddForm))) &&
      (c == Edit && editor && !available ==> r == Raises("AttributeError")) &&
      (c == Edit && editor && available ==>
        match GetSwitchById(t, true, parameters).value
        case Some(sw) => r == Returns(Attachment(EditForm(sw)))
        case None => r == Returns(Text(NoSuchKey(parameters))))
    ensures c == Info ==>
      (!available ==> r == Raises("AttributeError")) &&
      (available ==>
        match GetSwitchById(t, true, parameters).value
        case Some(sw) => r == Returns(Attachment(ModelCard(None, sw, FactsOf(sw, Columns))))
        case None => r == Returns(Text(NoEquivalentReply)))
    ensures c == ListSwitches ==>
      (!available ==> r == Raises("AttributeError")) &&
      (available ==>
        var rows := ListAllSwitches(t, true, parameters).value;
        r == Returns(Text(Strip(SwitchesTitle(|rows|) + "\n\n" + Bullets(SwitchIds(rows))))))
    ensures c == ListMappings ==>
      (!available ==> r == Raises("AttributeError")) &&
      (available ==>
        var edges := ListAllMapping(t, true, parameters).value;
        r == Returns(Text(Strip(MappingsTitle(|edges|) + "\n\n" + Bullets(EdgeTexts(edges))))))
    ensures c == ListUsers ==>
      (!available ==> r == Raises("TypeError")) && (available ==> r == Returns(ApprovedUsers(t.users)))
    ensures c == ListOther || c == Export || c == Import ==> r == Returns(Text(NotImplemented))
    ensures c == Unrecognised ==> r == Returns(Text(NotRecognised))
    ensures c == Request ==>
      (!available ==> r == Raises("TypeError")) &&
      (available ==>
        var admins := GetAdminUsers(t, true).value;
        r == Returns(NoReply) && |sends| == |admins| &&
        forall i :: 0 <= i < |sends| ==>
          sends[i] == (admins[i].id + CompanyDomain, AccessRequest(displayName, me, parameters)))
  {
    sends := [];
    var editor := CanUserEdit(t.users, me, gate);
    if EditorOnly(c) && !editor {
      return Returns(Text(NoPermission)), [];
    }
    match c
    case Help =>
      r := Returns(HelpText(!editor));
    case Info =>
      var found := GetSwitchById(t, available, parameters);
      if found.Failure? {
        r := Raises("AttributeError");
      } else if found.value.Some? {
        var card := ModelResponse(found.value.value, None);
        r := Returns(Attachment(card));
      } else {
        r := Returns(Text(NoEquivalentReply));
      }
    case ListSwitches =>
      var rows := ListAllSwitches(t, available, parameters);
      if rows.Failure? {
        r := Raises("AttributeError");
      } else {
        var text := GenerateSwitchesResponse(rows.value);
        r := Returns(Text(text));
      }
    case ListMappings =>
      var edges := ListAllMapping(t, available, parameters);
      if edges.Failure? {
        r := Raises("AttributeError");
      } else {
        var text := GenerateMappingResponse(edges.value);
        r := Returns(Text(text));
      }
    case ListUsers =>
      r := if available then Returns(ApprovedUsers(t.users)) else Raises("TypeError");
    case ListOther =>
      r := Returns(Text(NotImplemented));
    case Edit =>
      var found := GetSwitchById(t, available, parameters);
      if found.Failure? {
        r := Raises("AttributeError");
      } else if found.value.Some? {
        r := Returns(Attachment(EditForm(found.value.value)));
      } else {
        r := Returns(Text(NoSuchKey(parameters)));
      }
    case AddSwitch =>
      r := Returns(Attachment(AddForm));
    case Request =>
      var out := UserAccessRequest(GetAdminUsers(t, available), displayName, me, parameters);
      if out.Raises? {
        r := Raises(out.exception);
      } else {
        r, sends := Returns(NoReply), out.value;
      }
    case Export =>
      r := Returns(Text(NotImplemented));
    case Import =>
      r := Returns(Text(NotImplemented));
    case Unrecognised =>
      r := Returns(Text(NotRecognised));
  }

  /** The handlers that change a table, once the editor gate of `ChangeCommand` has been
      passed: each runs in the handler's own session, whose store answers iff `available`. */
  method ChangeAsEditor(db: Store, available: bool, me: Option<string>, c: Command, parameters: string)
    returns (r: Outcome<Reply>)
    requires db.Valid() && Changes(c)
    modifies db
    ensures db.Valid()
    ensures EditorOnly(c) && !available ==>
      db.switches == old(db.switches) && db.mappings == old(db.mappings) && db.users == old(db.users) &&
      (c == RemoveSwitch ==> r == Returns(Text(ErrorReply))) &&
      (c == RemoveMapping && |Split(parameters, ' ')| == 2 ==> r == Returns(Text(ErrorReply))) &&
      (c == AddMapping && |StrippedTokens(parameters)| == 2 ==> r == Returns(Text(ErrorReply)))
    ensures r.Raises? ==> c == AddMapping && r.exception == "IndexError"
    ensures c == RemoveSwitch && available ==>
      var hits := Filter(old(db.switches), IdLike(parameters));
      db.mappings == old(db.mappings) && db.users == old(db.users) &&
      db.switches == if |hits| == 1 then Filter(old(db.switches), Not(IdLike(parameters))) else old(db.switches)
    ensures c == RemoveMapping && available ==>
      var tokens := Split(parameters, ' ');
      db.switches == old(db.switches) && db.users == old(db.users) &&
      db.mappings ==
        if |tokens| == 2 && |Filter(old(db.mappings), Links(tokens[0], tokens[1]))| == 1
        then Filter(old(db.mappings), Not(Links(tokens[0], tokens[1])))
        else old(db.mappings)
    ensures c == AddMapping && available ==>
      var tokens := StrippedTokens(parameters);
      var added := |tokens| == 2 && Filter(old(db.mappings), Links(tokens[0], tokens[1])) == [];
      db.switches == old(db.switches) && db.users == old(db.users) &&
      (r.Raises? <==> added && tokens[0] == "") &&
      db.mappings == if added && tokens[0] != "" then old(db.mappings) + [NewEdge(tokens[0], tokens[1])] else old(db.mappings)
    ensures c == Allow ==>
      var granted := available && me.Some? && EditorRecord(old(db.users), me.value);
      db.switches == old(db.switches) && db.mappings == old(db.mappings) &&
      db.users == if granted then Filter(old(db.users), Not(HasId(parameters))) + [User(parameters, "editor")] else old(db.users)
    ensures c == Disallow ==>
      var granted := available && me.Some? && EditorRecord(old(db.users), me.value);
      var hits := Filter(old(db.users), HasId(parameters));
      var removes := granted && |hits| == 1 && hits[0].CanEdit() && !hits[0].IsAdmin();
      db.switches == old(db.switches) && db.mappings == old(db.mappings) &&
      db.users == if removes then Filter(old(db.users), Not(HasId(parameters))) else old(db.users)
    ensures c == RemoveSwitch ==> r == Returns(Text(RemoveSwitchReply(old(db.switches), available, parameters)))
    ensures c == RemoveMapping ==> r == Returns(Text(RemoveMappingReply(old(db.mappings), available, parameters)))
    ensures c == AddMapping ==>
      var out := AddMappingOutcome(old(db.mappings), available, parameters);
      r == if out.Raises? then Raises(out.exception) else Returns(Text(out.value))
    ensures c == Allow ==> r == Returns(Text(AllowReply(old(db.users), available, me, parameters)))
    ensures c == Disallow ==> r == Returns(Text(DisallowReply(old(db.users), available, me, parameters)))
  {
    match c {
    case RemoveSwitch =>
      var reply := RemoveSwitchById(db, available, parameters);
      r := Returns(Text(reply));
    case RemoveMapping =>
      var reply := RemoveMappingById(db, available, parameters);
      r := Returns(Text(reply));
    case AddMapping =>
      var out := AddMappingById(db, available, parameters);
      r := if out.Raises? then Raises(out.exception) else Returns(Text(out.value));
    case Allow =>
      var reply := AllowUserById(db, available, me, parameters);
      r := Returns(Text(reply));
    case Disallow =>
      var reply := DisallowUserById(db, available, me, parameters);
      r := Returns(Text(reply));
    }
  }

  /** The handlers that may change a table (bot.py:100-118): the three editor commands
      are refused first if the sender cannot edit, asked in a session of its own that the
      store answers when `gate` holds; the handler's session is answered when `available`
      holds, and a refused one changes nothing. `allow` and `disallow` check the sender's
      record in their own session. */
  method ChangeCommand(db: Store, gate: bool, available: bool, me: Option<string>, c: Command, parameters: string)
    returns (r: Outcome<Reply>)
    requires db.Valid() && Changes(c)
    modifies db
    ensures db.Valid()
    ensures EditorOnly(c) && !CanUserEdit(old(db.users), me, gate) ==>
      r == Returns(Text(NoPermission)) && db.Snapshot() == old(db.Snapshot())
    ensures EditorOnly(c) && CanUserEdit(old(db.users), me, gate) && !available ==>
      db.switches == old(db.switches) && db.mappings == old(db.mappings) && db.users == old(db.users) &&
      (c == RemoveSwitch ==> r == Returns(Text(ErrorReply))) &&
      (c == RemoveMapping && |Split(parameters, ' ')| == 2 ==> r == Returns(Text(ErrorReply))) &&
      (c == AddMapping && |StrippedTokens(parameters)| == 2 ==> r == Returns(Text(ErrorReply)))
    ensures r.Raises? ==> c == AddMapping && r.exception == "IndexError"
    ensures c == RemoveSwitch && CanUserEdit(old(db.users), me, gate) && available ==>
      var hits := Filter(old(db.switches), IdLike(parameters));
      db.mappings == old(db.mappings) && db.users == old(db.users) &&
      db.switches == if |hits| == 1 then Filter(old(db.switches), Not(IdLike(parameters))) else old(db.switches)
    ensures c == RemoveMapping && CanUserEdit(old(db.users), me, gate) && available ==>
      var tokens := Split(parameters, ' ');
      db.switches == old(db.switches) && db.users == old(db.users) &&
      db.mappings ==
        if |tokens| == 2 && |Filter(old(db.mappings), Links(tokens[0], tokens[1]))| == 1
        then Filter(old(db.mappings), Not(Links(tokens[0], tokens[1])))
        else old(db.mappings)
    ensures c == AddMapping && CanUserEdit(old(db.users), me, gate) && available ==>
      var tokens := StrippedTokens(parameters);
      var added := |tokens| == 2 && Filter(old(db.mappings), Links(tokens[0], tokens[1])) == [];
      db.switches == old(db.switches) && db.users == old(db.users) &&
      (r.Raises? <==> added && tokens[0] == "") &&
      db.mappings == if added && tokens[0] != "" then old(db.mappings) + [NewEdge(tokens[0], tokens[1])] else old(db.mappings)
    ensures c == Allow ==>
      var granted := available && me.Some? && EditorRecord(old(db.users), me.value);
      db.switches == old(db.switches) && db.mappings == old(db.mappings) &&
      db.users == if granted then Filter(old(db.users), Not(HasId(parameters))) + [User(parameters, "editor")] else old(db.users)
    ensures c == Disallow ==>
      var granted := available && me.Some? && EditorRecord(old(db.users), me.value);
      var hits := Filter(old(db.users), HasId(parameters));
      var removes := granted && |hits| == 1 && hits[0].CanEdit() && !hits[0].IsAdmin();
      db.switches == old(db.switches) && db.mappings == old(db.mappings) &&
      db.users == if removes then Filter(old(db.users), Not(HasId(parameters))) else old(db.users)
    ensures c == RemoveSwitch && CanUserEdit(old(db.users), me, gate) ==>
      r == Returns(Text(RemoveSwitchReply(old(db.switches), available, parameters)))
    ensures c == RemoveMapping && CanUserEdit(old(db.users), me, gate) ==>
      r == Returns(Text(RemoveMappingReply(old(db.mappings), available, parameters)))
    ensures c == AddMapping && CanUserEdit(old(db.users), me, gate) ==>
      var out := AddMappingOutcome(old(db.mappings), available, parameters);
      r == if out.Raises? then Raises(out.exception) else Returns(Text(out.value))
    ensures c == Allow ==> r == Returns(Text(AllowReply(old(db.users), available, me, parameters)))
    ensures c == Disallow ==> r == Returns(Text(DisallowReply(old(db.users), available, me, parameters)))
  {
    if EditorOnly(c) && !CanUserEdit(db.users, me, gate) {
      return Returns(Text(NoPermission));
    }
    r := ChangeAsEditor(db, available, me, c, parameters);
  }

  /** `handle_command` (bot.py:50-128): the sender's username is looked up in the
      directory, the command parsed and classified; an editor command from someone who
      cannot edit is refused with nothing looked up or changed, and only the handlers
      that change a table change one. `gate` and `available` are the store's answers to
      the two sessions of a command, as in `ChangeCommand`. */
  method HandleCommand(db: Store, gate: bool, available: bool, directory: seq<Person>, personId: string,
                       displayName: string, command: string)
    returns (r: Outcome<Reply>, sends: seq<(string, string)>)
    requires db.Valid()
    modifies db
    ensures db.Valid()
    ensures var c := Classify(CommandType(command), Parameters(command));
      (EditorOnly(c) && !CanUserEdit(old(db.users), UsernameOf(directory, personId), gate) ==>
        r == Returns(Text(NoPermission)) && sends == [] && db.Snapshot() == old(db.Snapshot())) &&
      (!Changes(c) ==> db.Snapshot() == old(db.Snapshot())) &&
      (!c.Request? ==> sends == [])
  {
    var parameters := Parameters(command);
    var c := Classify(CommandType(command), parameters);
    var me := PersonIdToUsername(directory, personId);
    if Changes(c) {
      r := ChangeCommand(db, gate, available, me, c, parameters);
      sends := [];
    } else {
      r, sends := AnswerCommand(db.Snapshot(), gate, available, me, displayName, c, parameters);
    }
  }

  lemma AllowPrefix(username: string)
    ensures "/allow " + username == "/" + "allow" + " " + username
  {
  }

  lemma AllowWord(parameters: string)
    ensures Classify("allow", parameters) == Allow
    ensures forall i :: 0 <= i < |"allow"| ==> !IsSpace("allow"[i])
  {
  }

  /** The command in an access request grants the requester: `/allow name` parses into
      the `allow` handler for that name (utils.py:203 against bot.py:52-57, 115-116). */
  lemma GrantCommandParses(username: string)
    requires forall i :: 0 <= i < |username| ==> !IsSpace(username[i])
    ensures var command := "/allow " + username;
      Classify(CommandType(command), Parameters(command)) == Allow && Parameters(command) == username
  {
    var command := "/allow " + username;
    AllowPrefix(username);
    AllowWord(username);
    if username != [] {
      assert !IsSpace(username[|username| - 1]);
    }
    ParseCommandOf("allow", username);
    var word, parameters := CommandType(command), Parameters(command);
    assert word == "allow" && parameters == username;
    assert Classify(word, parameters) == Allow;
  }

  // ---------------------------------------------------------------------------
  // The reply to a model question

  /** The branch of `compare` a search result takes (bot.py:149-189). */
  datatype Category = NoSuchModel | NoEquivalent | Ambiguous | ModularChoice | Equivalents | Silent

  function CategoryOf(d: MatchResult): (r: Category)
    ensures r == NoSuchModel || r == NoEquivalent <==> d.switches == []
    ensures r == Equivalents ==> d.matched
  {
    if d.switches == [] then (if !d.matched then NoSuchModel else NoEquivalent)
    else if |d.switches| > 1 && !Truthy(d.modular) && !d.matched then Ambiguous
    else if |d.switches| > 1 && Truthy(d.modular) then ModularChoice
    else if d.matched then Equivalents
    else Silent
  }

  const NoSuchModelReply: string := "Sorry, I couldn't find any switch matching that model number."
  const AmbiguousHeader: string := "**I've found multiple matches for that model - please be more specific.**\n\n"
  const ModularHeader: string := "**This is a modular switch - what is the correct combination?**\n\n"
  const InfoHint: string := "*To find out more information about any particular switch, type '/info [SWITCH]'*\n\n"

  /** Every item followed by a newline. */
  function Lines(items: seq<string>): string
    decreases |items|
  {
    if items == [] then [] else Lines(items[..|items| - 1]) + items[|items| - 1] + "\n"
  }

  /** Python's `s[:-1]`. */
  function DropLast(s: string): string {
    if s == [] then [] else s[..|s| - 1]
  }

  /** The bullet of each candidate in the ambiguity reply (bot.py:161-162). */
  function ModelNames(switches: seq<Switch>): (r: seq<string>)
    ensures |r| == |switches| && forall i :: 0 <= i < |r| ==> r[i] == "- " + Show(switches[i].Get(Model))
  {
    seq(|switches|, i requires 0 <= i < |switches| => "- " + Show(switches[i].Get(Model)))
  }

  /** The bullet of each combination in the modular reply (bot.py:168-169). */
  function Combinations(switches: seq<Switch>): (r: seq<string>)
    ensures |r| == |switches| &&
      forall i :: 0 <= i < |r| ==>
        r[i] == "- " + Show(switches[i].Get(Model)) + " with a " + Show(switches[i].Get(NetworkModule))
  {
    seq(|switches|, i requires 0 <= i < |switches| =>
      "- " + Show(switches[i].Get(Model)) + " with a " + Show(switches[i].Get(NetworkModule)))
  }

  function CountMessage(n: nat, entity: string): string {
    "**There are " + NatToString(n) + " equivalent switches for the " + entity + "**"
  }

  /** The fulfillment text `compare` hands back to Dialogflow. */
  function Fulfillment(d: MatchResult): (r: string)
    ensures r == "" <==> CategoryOf(d) == Equivalents || CategoryOf(d) == Silent
  {
    match CategoryOf(d)
    case NoSuchModel => NoSuchModelReply
    case NoEquivalent => NoEquivalentReply
    case Ambiguous => DropLast(AmbiguousHeader + Lines(ModelNames(d.switches)))
    case ModularChoice => DropLast(ModularHeader + Lines(Combinations(d.switches)))
    case Equivalents => ""
    case Silent => ""
  }

  /** A message `compare` posts into the room itself. */
  datatype Post = Markdown(text: string) | CardPost(text: string, card: Card)

  /** The card post of one switch, with `str(switch)` as its text. */
  function CardPostOf(sw: Switch, original: Option<string>): Post {
    CardPost(ReprHeader + ReprLines(sw, ShownColumns(sw, Columns)), ModelCard(original, sw, FactsOf(sw, Columns)))
  }

  /** One card post per switch, in order. */
  function CardPosts(switches: seq<Switch>, original: Option<string>): (r: seq<Post>)
    ensures |r| == |switches| && forall i :: 0 <= i < |r| ==> r[i] == CardPostOf(switches[i], original)
  {
    seq(|switches|, i requires 0 <= i < |switches| => CardPostOf(switches[i], original))
  }

  /** Two unmatched, non-modular candidates of model `X` get the ambiguity header and one
      bullet each, the last without its newline (bot.py:158-163). */
  lemma AmbiguousExample(sw: Switch)
    requires sw.Get(Model) == Str("X")
    ensures Fulfillment(MatchResult(false, Bool(false), [sw, sw], None)) == AmbiguousHeader + "- X\n- X"
  {
    var d := MatchResult(false, Bool(false), [sw, sw], None);
    var names := ModelNames(d.switches);
    assert Show(sw.Get(Model)) == "X";
    assert |names| == 2 && names[0] == "- X" && names[1] == "- X";
    assert names == ["- X", "- X"];
    assert Lines(names) == Lines(["- X"]) + "- X" + "\n";
    assert Lines(["- X"]) == "- X\n";
    var s := AmbiguousHeader + "- X\n- X";
    assert AmbiguousHeader + Lines(names) == s + "\n";
    assert DropLast(s + "\n") == s;
  }

  /** The posts of the matched branch: a count line when there are several, then either
      a names-only list (more than three) or one card per switch. */
  function Posts(d: MatchResult): (r: seq<Post>)
    ensures r == [] <==> CategoryOf(d) != Equivalents
    ensures |r| <= |d.switches| + 1
  {
    if CategoryOf(d) != Equivalents then []
    else
      var n := |d.switches|;
      (if n > 1 then [Markdown(CountMessage(n, ShowName(d.matchedModel)))] else []) +
      (if n > 3 then [Markdown(InfoHint + Bullets(SwitchIds(d.switches)))] else CardPosts(d.switches, d.matchedModel))
  }

  /** `header` and then each item on a line of its own: the loop of the two list
      replies of `compare`. */
  method LinesAfter(header: string, items: seq<string>) returns (text: string)
    ensures text == header + Lines(items)
  {
    text := header;
    for i := 0 to |items|
      invariant text == header + Lines(items[..i])
    {
      assert items[..i + 1][..i] == items[..i];
      text := text + items[i] + "\n";
    }
    assert items[..|items|] == items;
  }

  /** The card of one switch and its text, `str(switch)`. */
  method CardPostFor(sw: Switch, original: Option<string>) returns (post: Post)
    ensures post == CardPostOf(sw, original)
  {
    var card := ModelResponse(sw, original);
    var text := SwitchRepr(sw);
    post := CardPost(text, card);
  }

  /** The card loop of the matched branch (bot.py:185-189). */
  method CardsFor(switches: seq<Switch>, original: Option<string>) returns (posts: seq<Post>)
    ensures posts == CardPosts(switches, original)
  {
    posts := [];
    for i := 0 to |switches|
      invariant |posts| == i
      invariant forall j :: 0 <= j < i ==> posts[j] == CardPostOf(switches[j], original)
    {
      var post := CardPostFor(switches[i], original);
      posts := posts + [post];
    }
  }

  /** The reply part of `compare` (bot.py:146-191). */
  method ReplyTo(d: MatchResult) returns (fulfillment: string, posts: seq<Post>)
    ensures fulfillment == Fulfillment(d) && posts == Posts(d)
  {
    fulfillment, posts := "", [];
    var category := CategoryOf(d);
    var switches := d.switches;
    if category == NoSuchModel {
      fulfillment := NoSuchModelReply;
    } else if category == NoEquivalent {
      fulfillment := NoEquivalentReply;
    } else if category == Ambiguous {
      var text := LinesAfter(AmbiguousHeader, ModelNames(switches));
      fulfillment := DropLast(text);
    } else if category == ModularChoice {
      var text := LinesAfter(ModularHeader, Combinations(switches));
      fulfillment := DropLast(text);
    } else if category == Equivalents {
      if |switches| > 1 {
        posts := [Markdown(CountMessage(|switches|, ShowName(d.matchedModel)))];
      }
      if |switches| > 3 {
        var message := BulletsAfter(InfoHint, SwitchIds(switches));
        posts := posts + [Markdown(message)];
      } else {
        var cards := CardsFor(switches, d.matchedModel);
        posts := posts + cards;
      }
    }
  }

  lemma LinesEndInNewline(items: seq<string>)
    requires items != []
    ensures Lines(items) != [] && Lines(items)[|Lines(items)| - 1] == '\n'
  {
  }

  /** Dropping the last character of a text that ends in a newline. */
  lemma DropNewline(s: string)
    requires s != [] && s[|s| - 1] == '\n'
    ensures DropLast(s) + "\n" == s
  {
  }

  /** The two list replies are their header and one line per switch, in order, with only
      the final newline removed; every reply other than the matched one posts nothing,
      and the matched one leaves the fulfillment text empty (bot.py:150-191). */
  lemma ReplyShape(d: MatchResult)
    ensures CategoryOf(d) == Ambiguous ==> Fulfillment(d) + "\n" == AmbiguousHeader + Lines(ModelNames(d.switches))
    ensures CategoryOf(d) == ModularChoice ==> Fulfillment(d) + "\n" == ModularHeader + Lines(Combinations(d.switches))
    ensures CategoryOf(d) != Equivalents ==> Posts(d) == []
    ensures CategoryOf(d) == Equivalents ==>
      Fulfillment(d) == "" &&
      |Posts(d)| == (if |d.switches| > 1 then 1 else 0) + (if |d.switches| > 3 then 1 else |d.switches|)
  {
    if CategoryOf(d) == Ambiguous {
      var s := AmbiguousHeader + Lines(ModelNames(d.switches));
      LinesEndInNewline(ModelNames(d.switches));
      assert s[|s| - 1] == Lines(ModelNames(d.switches))[|Lines(ModelNames(d.switches))| - 1];
      DropNewline(s);
    } else if CategoryOf(d) == ModularChoice {
      var s := ModularHeader + Lines(Combinations(d.switches));
      LinesEndInNewline(Combinations(d.switches));
      assert s[|s| - 1] == Lines(Combinations(d.switches))[|Lines(Combinations(d.switches))| - 1];
      DropNewline(s);
    }
  }

  /** Which reply each search result gets: no switch is a miss or a missing equivalent
      according to `matched`; several switches are a modular choice when the flag is
      truthy and otherwise an ambiguity, unless matched; one switch gets no reply at all
      exactly when it is unmatched (bot.py:150-189). */
  lemma CategoryMeans(d: MatchResult)
    ensures CategoryOf(d) == NoSuchModel <==> d.switches == [] && !d.matched
    ensures CategoryOf(d) == NoEquivalent <==> d.switches == [] && d.matched
    ensures CategoryOf(d) == ModularChoice <==> |d.switches| > 1 && Truthy(d.modular)
    ensures CategoryOf(d) == Ambiguous <==> |d.switches| > 1 && !Truthy(d.modular) && !d.matched
    ensures CategoryOf(d) == Silent <==> |d.switches| == 1 && !d.matched
  {
  }

  /** Against the search as the store answers it, the reply is decided by the number of
      candidates, and no question that gets a record goes unanswered: none is a miss, one
      is its equivalents (or the missing-equivalent text), several an ambiguity or a
      modular choice according to the first candidate's flag (conversion.py:63-97 with
      bot.py:150-189). */
  lemma ResolvedCategory(t: Tables, fields: Fields)
    ensures var c := Candidates(t, fields); var r := Resolve(t, fields);
      r.Returns? ==>
        var d := r.value;
        CategoryOf(d) != Silent &&
        (|c| == 0 <==> CategoryOf(d) == NoSuchModel) &&
        (|c| == 1 <==> CategoryOf(d) == NoEquivalent || CategoryOf(d) == Equivalents) &&
        (|c| > 1 && Truthy(c[0].Get(Modular)) <==> CategoryOf(d) == ModularChoice) &&
        (|c| > 1 && !Truthy(c[0].Get(Modular)) <==> CategoryOf(d) == Ambiguous)
  {
    ResolveCases(t, fields);
  }

  // ---------------------------------------------------------------------------
  // The Dialogflow session

  /** The session id a conversation opens with (bot.py:288). */
  function SessionId(personId: string, roomId: string): string {
    personId + "." + roomId
  }

  /** The person and room `compare` reads back from a session path (bot.py:134-136): the
      last `/` segment split on `.`; fewer than two pieces raise `IndexError`. */
  function ParseSession(session: string): (r: Outcome<(string, string)>)
    ensures var path := Split(session, '/'); r.Raises? <==> '.' !in path[|path| - 1]
    ensures r.Raises? ==> r.exception == "IndexError"
    ensures r.Returns? ==> '.' !in r.value.0 && '.' !in r.value.1
  {
    var path := Split(session, '/');
    SplitCount(path[|path| - 1], '.');
    var ids := Split(path[|path| - 1], '.');
    if |ids| < 2 then Raises("IndexError") else Returns((ids[0], ids[1]))
  }

  /** The ids of a session parse back from the session path, behind any prefix, as long
      as neither holds a `/` or a `.` (bot.py:134-136, 288). */
  lemma SessionRoundTrip(prefix: string, personId: string, roomId: string)
    requires '/' !in personId && '/' !in roomId && '.' !in personId && '.' !in roomId
    ensures ParseSession(prefix + "/" + SessionId(personId, roomId)) == Returns((personId, roomId))
    ensures ParseSession(SessionId(personId, roomId)) == Returns((personId, roomId))
  {
    var id := personId + ['.'] + roomId;
    assert SessionId(personId, roomId) == id;
    SplitTwo(personId, '.', roomId);
    assert '/' !in id;
    SplitWithoutSeparator(id, '/');
    LastPieceAfterSeparator(prefix, '/', id);
    assert prefix + "/" + id == prefix + ['/'] + id;
  }

  /** Posts addressed to one room. */
  function Addressed(room: string, posts: seq<Post>): (r: seq<(string, Post)>)
    ensures |r| == |posts| && forall i :: 0 <= i < |r| ==> r[i] == (room, posts[i])
  {
    seq(|posts|, i requires 0 <= i < |posts| => (room, posts[i]))
  }

  /** `compare` (bot.py:130-193): the session path names the room, the search runs
      against the store, and the reply is the fulfillment text plus the posts into that
      room. A store that refuses part way leaves the record as built so far, which reads
      as a miss; a session path without a `.` in its last segment, and a single candidate
      whose id the mapping lookup cannot index, raise before anything is posted. */
  method Compare(t: Tables, h: Health, session: string, fields: Fields)
    returns (r: Outcome<string>, posts: seq<(string, Post)>)
    ensures ParseSession(session).Raises? ==> r == Raises("IndexError") && posts == []
    ensures r.Raises? ==>
      posts == [] &&
      (ParseSession(session).Raises? || (Resolve(t, fields).Raises? && r.exception == Resolve(t, fields).exception))
    ensures ParseSession(session).Returns? && h.Healthy? && Resolve(t, fields).Raises? ==>
      r == Raises(Resolve(t, fields).exception)
    ensures r.Returns? ==>
      var room := ParseSession(session).value.1;
      var d := Resolve(t, fields);
      (h.Healthy? ==> d.Returns? && r.value == Fulfillment(d.value) && posts == Addressed(room, Posts(d.value))) &&
      ((d.Returns? && r.value == Fulfillment(d.value) && posts == Addressed(room, Posts(d.value))) ||
       (r.value == NoSuchModelReply && posts == []))
  {
    var ids := ParseSession(session);
    if ids.Raises? {
      return Raises("IndexError"), [];
    }
    var room := ids.value.1;
    var found := FindEquivalentSwitch(t, h, fields);
    if found.Raises? {
      return Raises(found.exception), [];
    }
    var data := found.value;
    var fulfillment, replies := ReplyTo(data);
    r := Returns(fulfillment);
    posts := Addressed(room, replies);
  }

  // ---------------------------------------------------------------------------
  // An incoming message

  const BotName: string := "meercat"

  predicate NotMention(token: string) {
    Lower(token) != BotName
  }

  function KeepToken(): string -> bool {
    (token: string) => NotMention(token)
  }

  /** Text that starts with the bot's name, in any case, loses every space-separated
      token that is the name (bot.py:272-276); any other text is kept. */
  function StripMention(text: string): (r: string)
    ensures !StartsWith(Lower(text), BotName) ==> r == text
  {
    if StartsWith(Lower(text), BotName) then Join(Filter(Split(text, ' '), KeepToken()), ' ') else text
  }

  /** After the strip no token is the bot's name, and every other token of the message
      is still there, in its place among the others. */
  lemma MentionsRemoved(text: string)
    requires StartsWith(Lower(text), BotName)
    ensures forall token :: token in Split(StripMention(text), ' ') ==> NotMention(token)
    ensures forall token :: token in Split(text, ' ') && NotMention(token) ==> token in Split(StripMention(text), ' ')
    ensures var kept := Filter(Split(text, ' '), KeepToken());
      Split(StripMention(text), ' ') == if kept == [] then [[]] else kept
  {
    var kept := Filter(Split(text, ' '), KeepToken());
    forall token
      ensures token in kept <==> token in Split(text, ' ') && NotMention(token)
    {
      FilterMembership(Split(text, ' '), KeepToken(), token);
    }
    if kept == [] {
      assert Split(StripMention(text), ' ') == [[]];
      assert Lower([]) == [];
    } else {
      assert forall i :: 0 <= i < |kept| ==> kept[i] in Split(text, ' ');
      assert forall i :: 0 <= i < |kept| ==> ' ' !in kept[i];
      SplitJoin(kept, ' ');
    }
  }

  /** The text after the mention strip and the fix that lets a bare "help" be a command
      (bot.py:272-280). */
  function Prepared(text: string): (r: string)
    ensures r == StripMention(text) || r == "/help"
    ensures Strip(r) != "help"
  {
    HelpCommandText();
    var t := StripMention(text);
    if Strip(t) == "help" then "/help" else t
  }

  /** Where `receive_message` sends a message: to `handle_command`, to Dialogflow, or
      nowhere. */
  datatype Route = ToCommand(text: string) | ToConversation(text: string) | Ignored

  /** The routing as written (bot.py:265-290): an empty message is ignored, but
      `strip()[0]` fails on a text that is blank once the mention is gone. */
  function RouteAsWritten(text: string): (r: Outcome<Route>)
    ensures r.Raises? <==> text != "" && Strip(Prepared(text)) == []
    ensures r.Raises? ==> r.exception == "IndexError"
    ensures r == Returns(Ignored) <==> text == ""
    ensures r.Returns? && !r.value.Ignored? ==> r.value.text == Prepared(text) && Strip(r.value.text) != []
  {
    if text == "" then Returns(Ignored)
    else
      var t := Prepared(text);
      if Strip(t) == [] then Raises("IndexError")
      else if Strip(t)[0] == '/' then Returns(ToCommand(t))
      else Returns(ToConversation(t))
  }

  lemma LowerBotName()
    ensures Lower(BotName) == BotName
  {
  }

  /** A message that is only the bot's name, which is what a room member sends who
      mentions the bot and types nothing else, ends in an uncaught `IndexError`. */
  lemma BareMentionRaises()
    ensures RouteAsWritten(BotName) == Raises("IndexError")
  {
    LowerBotName();
    assert StartsWith(Lower(BotName), BotName);
    assert ' ' !in BotName;
    SplitWithoutSeparator(BotName, ' ');
    assert !KeepToken()(BotName);
    assert Filter([BotName], KeepToken()) == [];
    assert StripMention(BotName) == [];
    assert Strip([]) == [];
  }

  /** The routing with the blank case ignored, as the empty message already is
      (bot.py:265-267). */
  function RouteMessage(text: string): (r: Route)
    ensures RouteAsWritten(text).Raises? ==> r == Ignored
    ensures RouteAsWritten(text).Returns? ==> r == RouteAsWritten(text).value
  {
    var t := Prepared(text);
    if Strip(t) == [] then Ignored
    else if Strip(t)[0] == '/' then ToCommand(t)
    else ToConversation(t)
  }

  /** The corrected routing never fails: a message is ignored exactly when nothing but
      whitespace is left of it, and goes to the command path exactly when what is left
      starts with `/`. */
  lemma RouteMessageMeans(text: string)
    ensures var t := Prepared(text);
      (RouteMessage(text).Ignored? <==> Strip(t) == []) &&
      (RouteMessage(text).ToCommand? <==> Strip(t) != [] && Strip(t)[0] == '/') &&
      (RouteMessage(text).ToCommand? ==> RouteMessage(text).text == t)
  {
  }

  /** A bare mention is ignored, and a bare "help", mention or not, is the help command. */
  lemma RouteMessageExamples(text: string)
    ensures RouteMessage(BotName) == Ignored
    ensures Strip(StripMention(text)) == "help" ==> RouteMessage(text) == ToCommand("/help")
  {
    BareMentionRaises();
    if Strip(StripMention(text)) == "help" {
      HelpCommandText();
    }
  }

  lemma HelpCommandText()
    ensures Strip("/help") == "/help" && "/help"[0] == '/'
  {
    StripUnpadded("/help");
  }

  /** The two halves an over-long reply is sent in: its lines split at index
      `int(len(lines) / 2)` (bot.py:315-321). */
  function Halves(text: string): (r: (string, string))
    ensures '\n' !in text ==> r == ("", text)
  {
    SplitSingle(text, '\n');
    var lines := Split(text, '\n');
    var middle := |lines| / 2;
    (Join(lines[..middle], '\n'), Join(lines[middle..], '\n'))
  }

  /** A reply of several lines is cut at a line break, so the halves rejoin into the
      reply and hold the first `n / 2` and the remaining lines; a reply of one line leaves
      the first half empty (bot.py:315-321). */
  lemma HalvesRejoin(text: string)
    ensures '\n' in text ==> Halves(text).0 + "\n" + Halves(text).1 == text
    ensures '\n' in text ==>
      var n := |Split(text, '\n')|;
      |Split(Halves(text).0, '\n')| == n / 2 && |Split(Halves(text).1, '\n')| == n - n / 2
  {
    SplitCount(text, '\n');
    if '\n' in text {
      JoinSplit(text, '\n');
      JoinHalves(Split(text, '\n'), '\n');
    }
  }

  /** Cutting a list of at least two separator-free pieces in the middle. */
  lemma JoinHalves(lines: seq<string>, sep: char)
    requires |lines| >= 2 && forall i :: 0 <= i < |lines| ==> sep !in lines[i]
    ensures var middle := |lines| / 2;
      Join(lines[..middle], sep) + [sep] + Join(lines[middle..], sep) == Join(lines, sep) &&
      |Split(Join(lines[..middle], sep), sep)| == middle &&
      |Split(Join(lines[middle..], sep), sep)| == |lines| - middle
  {
    var middle := |lines| / 2;
    var a, b := lines[..middle], lines[middle..];
    assert a + b == lines;
    JoinAppend(a, b, sep);
    assert forall i :: 0 <= i < |a| ==> a[i] == lines[i];
    assert forall i :: 0 <= i < |b| ==> b[i] == lines[middle + i];
    SplitJoin(a, sep);
    SplitJoin(b, sep);
  }
}
