# meercat in Dafny

meercat is a Webex chat bot. It tells people which Meraki switch is equivalent to a
given Catalyst switch, and the reverse. It keeps three tables:

- the switch catalog, one row per model with about thirty columns of port counts and
  features;
- the mapping table, each row pairing a Meraki id with a Catalyst id;
- the users table, which records who may edit the other two (`editor` or `admin`).

Users either chat in natural language or type slash commands. A language service
extracts the model fields from a chat message; the bot then finds the model, follows
its mappings and replies with cards or Markdown lists. Commands list, edit, add and
remove rows; the editing commands are gated on the sender's privilege.

This project models the bot's core and proves properties of the model:

| file | module | models |
|---|---|---|
| `wrappers.dfy` | `Wrappers` | `Option`, `Result` (a value or an error text the source returns in its place) and `Outcome` (a value or a Python exception by name) |
| `text.dfy` | `Text` | the Python string operations the source relies on: `lower`, `strip`, `split`, `join`, `startswith`, `in`, `int()` and `str()` of integers |
| `patterns.dfy` | `Patterns` | SQL `LIKE` as in section 8.5 of SQL-92, and the fuzzy, hyphen and substring patterns the source builds for it |
| `models.py` → `models.dfy` | `Models` | `User.is_admin` and `can_edit`; the 31 switch columns with their SQL types and `_name_mapping` labels; switch rows; `Switch.__repr__` |
| `database.dfy` | `Database` | a query as a filter over a table's rows; the three tables as values (`Tables`) and as a mutable `Store` class |
| `conversion.py` → `conversion.dfy` | `Conversion` | `find_switches_with_filters` and its relaxation retries, `find_switch_by_id`/`_by_model`, `find_switch_mapping`, `find_equivalent_switch` |
| `editing.py` → `editing.dfy` | `Editing` | every `Editor` operation: privilege checks, allow/disallow, list, lookup, type coercion of edit forms, switch edit and removal, mapping add and removal |
| `utils.py` → `utils.dfy` | `Utils` | `person_id_to_username`, the switch and mapping list replies, the fact list of the model card, the access-request messages |
| `bot.py` → `bot.dfy` | `Bot` | command parsing and gating in `handle_command`, the session parse and reply branches of `compare`, the mention stripping, routing and reply halving of `receive_message` |

The model follows the source's forms:

- Pure computations are functions.
- Loops are methods with `while`/`for` loops and invariants, each proved equal to a
  specification function.
- The database session is a `Store` object whose `switches`, `mappings` and `users`
  fields the editing methods reassign.

The database may refuse a query; Python reports that as `InvalidRequestError`. This
is never a precondition; it is an explicit fault parameter:

- Conversion takes a `Health` value, so a query may fail after the first `n` have
  answered.
- Editing and bot operations take an `available` flag for the store. A gated command
  asks `can_user_edit` in a session of its own before the handler opens another, so the
  bot's command handlers take one flag for each session (`gate` and `available`).

Each operation's error path is modelled as the source writes it: the error text it
returns, or the Python exception that follows from using that text.

## Model

| member | source | states |
|---|---|---|
| Patterns.Fuzzy | conversion.py:107-109 | the fuzzy pattern of a value begins and ends with `%` and is at least two characters long |
| Patterns.FuzzyExample | conversion.py:107-108 | `C9300L-48T-4G-E` becomes `%C9300L%-%48T%-%4G%-%E%` |
| Patterns.FourPieces | conversion.py:107-109 | four hyphen-free pieces joined by hyphens get `%` on both sides of every hyphen |
| Patterns.HyphensAppend | conversion.py:125 | the hyphen widening of a concatenation is the concatenation of the widenings |
| Patterns.FuzzyWidens | conversion.py:107-109 | every string a value's own pattern matches, its fuzzy pattern also matches, so fuzzy matching never loses a row an exact match found |
| Patterns.LikeHyphens | conversion.py:125 | a string matched by a pattern is still matched once each hyphen of the pattern becomes `%-%` |
| Patterns.LikeLiteral | editing.py:233 | a pattern without wildcards matches a string exactly when the two are equal |
| Patterns.Around | editing.py:185 | the containment pattern is the value with one `%` added at each end |
| Patterns.AroundMeansContains | editing.py:184-185 | `%token%` with a literal token matches a string exactly when the string contains the token |
| Patterns.LikeSelf | editing.py:380-391 | every string matches itself as a pattern, so a key searched for is found in a row that holds it |
| Models.PrivilegeRules | models.py:37-41 | every admin can edit; a user can edit iff the lower-cased privilege is `editor` or `admin`; case does not matter (`Admin`, `EDITOR`), and any other privilege cannot edit |
| Models.ColumnNamed | editing.py:259 | a name that resolves, as `getattr(models.Switch, k)` does, resolves to a column with that name |
| Models.NameRoundTrip | models.py:55-88 | every column's name resolves back to that column |
| Models.ColumnNamedNone | editing.py:259 | a name that no column has resolves to nothing (`getattr` fails) |
| Models.ColumnListed | models.py:55-88 | every column is in the column list, which has 31 entries (so none is listed twice) |
| Models.NameShape | models.py:129 | no column name starts with `_`, so `__repr__` filters no real column on its name |
| Models.ColumnTypes | models.py:55-88 | the SQL type of each column: BOOLEAN iff `modular` or `stackable`; INTEGER iff a `dl_`/`ul_` port count or one of `poe_power`, `switching_capacity`, `mac_entry`, `vlan`; VARCHAR iff one of the six text columns |
| Models.Switch.Set | editing.py:287 | setting a column changes that column's value and no other |
| Models.SwitchRepr | models.py:125-132 | the text is the fixed header followed by one `attr: value` line per shown column, in column order |
| Models.AttributeLines | models.py:127-130 | the loop's text is the lines of the shown columns |
| Models.ShownMembership | models.py:127-130 | a column is among the shown columns of a list iff it is in the list and its value is truthy and not the text `null` |
| Models.ReprShowsExactly | models.py:125-132 | the repr shows a column iff its value is truthy and not the text `null`; NULL, 0, False and the empty text are never shown |
| Database.Filter | editing.py:58-59 | a query returns no more rows than the table has, and each satisfies its filter |
| Database.FilterMembership | editing.py:58-59 | a row is in the result iff it is in the table and satisfies the predicate |
| Database.FilterAll | editing.py:34 | a query with no filter returns the whole table |
| Database.FilterWeaker | editing.py:213-214 | a weaker predicate keeps at least the rows of a stronger one |
| Database.FirstMatch | editing.py:282-287 | the position of the first row satisfying the filter (the row `switch[0]` denotes), or the table length when none does |
| Database.NoneSelected | editing.py:236-239 | a query returns nothing iff no row satisfies its filter, and then its complement keeps the whole table |
| Database.DeleteUnique | editing.py:325-326 | deleting the one matching row leaves exactly the rows that do not match |
| Database.SelectMeansAllFilters | conversion.py:120-138 | a switch is selected iff it passes `LIKE` on each given non-empty filter of model, network module and id |
| Conversion.HwSuffix | conversion.py:122-123 | the suffix is added only when asked; the result then ends in `hw` in any case |
| Conversion.Transform | conversion.py:121-135 | with neither flag the filters are unchanged; a filter is empty after the rewrite iff it was before; only the fuzzy flag touches the network module and the id, and it wraps a non-empty id in `%` |
| Conversion.Stages | conversion.py:140-157 | the filters of the queries one call may issue, the first being the call's own rebound filters |
| Conversion.RunLadder | conversion.py:138-159 | the rows are those of the first query that finds any, or of the last; every earlier query found nothing |
| Conversion.FindSwitchesWithFilters | conversion.py:110-159 | the search succeeds iff the store answers every query the relaxation ladder issues, and then returns the ladder's rows after that many queries |
| Conversion.RebindFilters | conversion.py:121-135 | the rebound filters are those of `Transform` for this call's fuzzy and suffix flags |
| Conversion.LadderStep | conversion.py:140-157 | one step of the ladder: a query with hits stops; otherwise the retry runs |
| Conversion.RunLadderCons | conversion.py:138-159 | running a ladder after its first stage is running its tail when the first stage found nothing |
| Conversion.FindSwitchById | conversion.py:161-164 | without expansion, one exact `LIKE` on the id; with it, the ladder of an id-only search |
| Conversion.FindSwitchByModel | conversion.py:166-169 | the same for a model-only search |
| Conversion.Unrelaxed | conversion.py:121-135 | with neither flag set, the filters are not rewritten |
| Conversion.IdLadder | conversion.py:161-164 | an id-only search has no `-HW` retry: the expanded ladder is the exact and then the fuzzy query |
| Conversion.StageBounds | conversion.py:140-157 | a call issues one to three queries; one when not expanding or already fuzzy |
| Conversion.HwSuffixOnce | conversion.py:122 | adding the `-HW` suffix twice equals adding it once |
| Conversion.TopLevelLadder | conversion.py:140-157 | a Meraki-looking model retries with `-HW` and then fuzzy; any other model retries fuzzy only |
| Conversion.FuzzyNeverLosesRows | conversion.py:150-157 | the fuzzy retry selects every row the exact query selected, and at least as many |
| Conversion.Counterparts | conversion.py:179-189 | at most one counterpart per mapping row |
| Conversion.CounterpartsAreEdges | conversion.py:179-189 | an id is a counterpart iff some mapping row pairs it with a match of the pattern on the chosen side (Meraki when the key starts with `m`) |
| Conversion.FindSwitchMapping | conversion.py:170-197 | an empty id raises `IndexError` at `id[0]` before any query, and only it raises; a found list of counterparts is never empty; each call that returns issues at least one query |
| Conversion.MappingOrder | conversion.py:170-197 | for any non-empty key on an answering store: the counterparts of the key itself, else those of `%key%`, else none |
| Conversion.MappingExactFirst | conversion.py:177-188 | with a wildcard-free key, the exact counterparts are exactly the other ends of the rows holding the key itself |
| Conversion.MappingAgrees | conversion.py:170-197 | a lookup that raises or succeeds gives what it gives on a healthy store; a healthy store never refuses it |
| Conversion.ResolveCases | conversion.py:60-97 | the resolution raises iff there is one candidate and its id is not a non-empty text, with `IndexError` for the empty text and `TypeError` otherwise; no candidate gives the default record; one gives a matched record naming its id; several give an unmatched record of them, `modular` taken from the first |
| Conversion.EquivalentsMatchIds | conversion.py:74-82 | every equivalent is a catalog row whose id matches some mapped id, exactly or fuzzily |
| Conversion.ExpandOne | conversion.py:76-81 | the rows for one mapped id: the exact query, then the expanded one when it finds nothing; it fails iff one of the queries it issues is refused |
| Conversion.ExpandMappings | conversion.py:74-84 | the equivalents of all mapped ids in order; a healthy store always answers |
| Conversion.FindEquivalentSwitch | conversion.py:46-105 | on a healthy store the outcome is the specification's `Resolve`; an exception it raises is the one `Resolve` raises; after a refused query it is an unmatched, non-modular record with no switches, naming at most the matched model |
| Editing.UniqueFilter | editing.py:84-88 | with unique user ids, `id == name` selects exactly the user of that id, or nothing |
| Editing.CanUserEditMeans | editing.py:81-112 | a user can edit iff the username is given, the store answers, and the user's record exists and can edit |
| Editing.OthersRejected | editing.py:87-88 | when exactly one row matches, every other row fails the predicate |
| Editing.UniqueMatch | editing.py:124-125 | the index of the one matching row, whose removal leaves the non-matching rows |
| Editing.AllowUserById | editing.py:114-140 | an editor's request replaces the target's record by an `editor` record, and the success text is returned; a non-editor gets the refusal and a refused store the error text; either leaves the users unchanged |
| Editing.AllowKeepsKeys | editing.py:121-128 | after an allow, user ids stay unique, and the target has exactly one record, `editor` |
| Editing.KeptIdsUnique | editing.py:124-125 | removing users keeps their ids unique |
| Editing.DisallowUserById | editing.py:142-169 | an editor's request removes a target that can edit and is not an admin; it is refused with the source's text when the target is unknown, cannot edit or is an admin |
| Editing.AdminsSurviveDisallow | editing.py:155-156 | a disallow never removes an admin |
| Editing.StrippedTokens | editing.py:173 | one token per space-separated piece, at least one; what the tokens hold is stated by `TokensUnpadded` |
| Editing.TokensUnpadded | editing.py:173 | no token holds a space, and none begins or ends with whitespace |
| Editing.ListAllSwitches | editing.py:171-197 | the listing fails iff the store refuses, with the error text; it never returns more rows than the table has |
| Editing.ListFilterIsSubstring | editing.py:183-185 | with a second token, a switch is listed iff its id contains the token |
| Editing.ListAllMapping | editing.py:199-226 | the same for the mapping table |
| Editing.ListMappingIsSubstring | editing.py:211-214 | with a second token, a mapping is listed iff either end contains it |
| Editing.GetSwitchById | editing.py:228-247 | fails iff the store refuses; a switch is returned iff exactly one row's id matches the pattern, and it is a table row whose id matches |
| Editing.UnknownKeyRefused | editing.py:259-268 | a key no column has is refused with the `does not exist` text |
| Editing.CoercedFitsColumn | editing.py:251-270 | an entry is refused only for an unknown key or a value an INTEGER column cannot take; an accepted VARCHAR value is a text, an INTEGER value an integer, and `"true"`/`"false"` become booleans for a BOOLEAN column |
| Editing.BooleanCoercion | editing.py:253-256 | `"true"` and `"false"` become booleans for a BOOLEAN column; every other value is kept as sent |
| Editing.TextCoercion | editing.py:260-261 | a VARCHAR column stores the `str()` of its value: text unchanged, `True` for a boolean |
| Editing.IntegerCoercion | editing.py:262-265 | for an INTEGER column, a null or empty value becomes 0, a boolean its number, an integer itself |
| Editing.IntegerTextEntry | editing.py:262-265 | a text sent for an INTEGER column is `int()` of it, of `"0"` when empty, and refused with the source's text naming INTEGER when it is not an integer |
| Editing.IntegerTextCoercion | editing.py:265 | the decimal text of any integer is read back as that integer |
| Editing.IntegerRefusesTrue | editing.py:253-270 | `"true"` sent for an INTEGER column is refused as not an integer, the source's text naming INTEGER |
| Editing.NotAnInteger | editing.py:265-270 | an unpadded text whose first character is neither a sign nor a digit is not an integer |
| Editing.TrueIsNotAnInteger | editing.py:265 | `"true"` is not an integer |
| Editing.CoerceOne | editing.py:251-270 | one entry coerced as the specification's `CoerceEntry` says |
| Editing.SanitiseInputs | editing.py:249-271 | the form is accepted iff every entry coerces, and then each entry holds its coerced value; otherwise the text is that of the first refused entry |
| Editing.AssignedMeans | editing.py:283-287 | after assigning a form with unique keys, a column holds the value its key was given, or its old value when no key names it |
| Editing.ApplyValues | editing.py:283-297 | each column of the new row holds the form's value for it, or the old value |
| Editing.EditSwitchById | editing.py:273-315 | one matching row is updated in place (EDIT); no matching row appends a new row built from the form (NEW); several return the error text; only the switch table changes |
| Editing.RemoveSwitchById | editing.py:317-338 | exactly one matching row is removed, with the success text; otherwise nothing changes and the reply says it could not be found |
| Editing.RemoveMappingById | editing.py:340-371 | two keys are required; exactly one row linking them is removed; otherwise nothing changes |
| Editing.NewEdge | editing.py:394-400 | the new edge joins exactly the two keys, the first being the Meraki end exactly when it starts with `m` in any case; that the duplicate check then finds it is stated by `AddedEdgeIsDetected` |
| Editing.AddMappingById | editing.py:373-415 | two stripped keys are required; an existing link is reported; otherwise the new mapping is appended; an empty first key raises `IndexError` at `parameters[0][0]` |
| Editing.AddedEdgeIsDetected | editing.py:380-392 | once a mapping is added, the same command finds it and reports it as existing |
| Editing.GetAdminUsers | editing.py:55-79 | an admin list exists iff the store answers |
| Editing.AdminUsersAreAdmins | editing.py:55-79 | the admin list holds exactly the records whose privilege is `admin`, each of which is an admin and can edit |
| Utils.CompanyEmail | utils.py:32-35 | an address found is one of the person's and contains `@cisco.com`; none is found only when no address contains it |
| Utils.PersonIdToUsername | utils.py:28-36 | the loop's result is the specification's `UsernameOf` |
| Utils.UsernameOf | utils.py:28-36 | a username found contains no `@` |
| Utils.UsernameMeans | utils.py:28-36 | no username iff no listed person of that id has a company address; a username has no `@`, and `username@` begins a company address of such a person |
| Utils.BulletsAfter | utils.py:94-95 | the loop's text is the header followed by one bullet line per item |
| Utils.BulletList | utils.py:92-97 | the reply is the stripped header-and-bullets text |
| Utils.BulletListShape | utils.py:92-97 | an empty list gives the title alone; otherwise the title, a blank line, the bullets, and the last bullet without its trailing spaces |
| Utils.GenerateSwitchesResponse | utils.py:90-97 | the reply is the stripped title counting the switches, followed by their bullets |
| Utils.GenerateMappingResponse | utils.py:99-106 | the same for mappings |
| Utils.TitleEnds | utils.py:92-101 | each title begins and ends with a non-space character |
| Utils.SwitchesResponseShape | utils.py:90-97 | the switches reply, stated over `SwitchIds` (the id of each switch, in table order, utils.py:95): the title alone for an empty table, otherwise the title, a blank line and one `- id` bullet per switch, with the last bullet's trailing newline stripped |
| Utils.MappingResponseShape | utils.py:99-106 | the same for mappings, stated over `EdgeTexts` (one `catalyst <=> meraki` per mapping, in table order, utils.py:104) |
| Utils.ModelFacts | utils.py:72-76 | the loop's facts are `FactsOf` the switch over the labelled columns |
| Utils.FactsMeans | utils.py:72-76 | (label, value) is a fact iff the column is listed, has that label and holds that truthy value |
| Utils.NullTextOnCardOnly | utils.py:75-76 | a column holding the text `null` appears on the card but not in the repr |
| Utils.UserAccessRequest | utils.py:192-208 | without an admin list it raises `TypeError`; otherwise one message per admin, to the admin's address, with the request text |
| Utils.RequestReachesAdmins | utils.py:195-207 | every `admin` record receives the request, and every recipient is an admin |
| Bot.CommandType | bot.py:52 | the command word contains no space |
| Bot.Parameters | bot.py:53-57 | the parameters are empty iff the stripped command has no space; otherwise they are what follows its first space |
| Bot.CommandReassembles | bot.py:52-57 | with parameters, the stripped command is `/`, the word, a space and the parameters |
| Bot.ParseCommandOf | bot.py:52-57 | `/word parameters` parses back into that word and those parameters; a bare `/word` has empty parameters |
| Bot.Classify | bot.py:62-128 | a `list` handler is chosen iff the word is `list`; any other handler is the one of its word |
| Bot.ClassifyMeans | bot.py:62-128 | each handler's word classifies to it; unrecognised iff the word names no handler; `list` picks switches, then mappings, then users, in that order of precedence |
| Bot.ModelResponse | utils.py:58-88 | the card carries the switch and its facts |
| Bot.AnswerCommand | bot.py:62-128 | for each handler that changes no table, the reply; an editor command from a non-editor gets the no-permission text, asked in its own session; a refused handler session raises according to which reply builder meets the error text, `/edit` included |
| Bot.ChangeAsEditor | bot.py:104-117 | once the editor gate is passed: the new state of every table and the reply of each handler (its success, not-found, exists, refusal and format texts, or `IndexError` from `add-mapping`), with the error text and nothing changed when the handler session is refused |
| Bot.ChangeCommand | bot.py:100-118 | an editor command from someone who cannot edit gets the no-permission text with nothing changed; otherwise each handler's new tables and its reply text as the editing operation gives it; an editor whose handler session is refused gets the error text with nothing changed; only `add-mapping` raises, and only `IndexError` |
| Bot.HandleCommand | bot.py:50-128 | an editor command from someone the permission session does not let edit is refused with nothing changed or sent; only table-changing handlers change the store; only `request` sends messages |
| Bot.GrantCommandParses | utils.py:204 | the `/allow name` command in an access request parses into `allow` with the requester as parameter |
| Bot.CategoryOf | bot.py:149-189 | a record without switches is a miss or a missing equivalent; the matched branch needs `matched` |
| Bot.Fulfillment | bot.py:149-170 | the fulfillment text is empty iff the record takes the matched branch or no branch |
| Bot.AmbiguousExample | bot.py:158-163 | two unmatched candidates of model `X` get the header and `- X`, a newline and `- X` |
| Bot.Posts | bot.py:172-189 | only the matched branch posts, and it posts at least once and at most once more than there are switches |
| Bot.LinesAfter | bot.py:160-170 | the loop's text is the header followed by the lines |
| Bot.CardPostFor | bot.py:184-189 | the post for one switch: its repr text and its card |
| Bot.CardsFor | bot.py:184-189 | one card post per switch, in order |
| Bot.ReplyTo | bot.py:149-191 | the reply text is `Fulfillment` and the posts are `Posts` of the record |
| Bot.LinesEndInNewline | bot.py:162-169 | every list line ends in a newline |
| Bot.DropNewline | bot.py:163-170 | dropping the last character removes just the final newline |
| Bot.ReplyShape | bot.py:157-191 | an ambiguous reply is its header followed by one line per candidate from `ModelNames` (`- model`, bot.py:161-162), and a modular reply its header followed by one line per candidate from `Combinations` (`- model with a module`, bot.py:168-169), in candidate order and without the final newline; only the matched branch posts and it leaves the text empty, posting one count line when there are several switches, then one names list when there are more than three, or else one card per switch |
| Bot.CategoryMeans | bot.py:149-189 | no switches is a miss or a missing equivalent according to `matched`; several are a modular choice iff the first's flag is truthy, else an ambiguity unless matched; no reply at all iff the record holds one switch and is not matched |
| Bot.ResolvedCategory | bot.py:145-189 | a resolution that gives a record is never silent; its category follows the candidate count and the first candidate's modular flag |
| Bot.SessionRoundTrip | bot.py:134-136 | a session built from a person id and a room id parses back into them |
| Bot.ParseSession | bot.py:134-136 | the parse raises `IndexError` iff the last `/` segment has no `.`; the two ids it returns hold no `.` |
| Bot.Compare | bot.py:130-193 | raises `IndexError` when the session does not parse, and otherwise raises only what the resolution raises, always before posting; on a healthy store the reply and posts are those of the resolved record, posted to the session's room, or the resolution's exception; on a refusing store they are those or the no-model reply with no posts |
| Bot.StripMention | bot.py:271-276 | a message not starting with the bot's name, in any case, is unchanged |
| Bot.MentionsRemoved | bot.py:271-276 | for a message starting with it, no token left names the bot, and the tokens left are exactly those that do not name it, in their order and with their repeats |
| Bot.Prepared | bot.py:271-279 | the prepared text is the message with its mentions stripped, or `/help`, and never strips to a bare `help` |
| Bot.RouteAsWritten | bot.py:265-290 | an empty message is ignored; otherwise the routing raises `IndexError` iff the prepared text is blank, and routes the prepared text |
| Bot.BareMentionRaises | bot.py:271-283 | the routing as written raises `IndexError` at `strip()[0]` on the message `meercat` |
| Bot.RouteMessage | bot.py:281-293 | the corrected routing ignores every message on which the routing as written raises, and otherwise routes it the same way |
| Bot.RouteMessageMeans | bot.py:277-293 | a message is ignored iff it is blank once prepared, and goes to the command handler, unchanged, iff it then starts with `/` |
| Bot.RouteMessageExamples | bot.py:271-283 | a bare mention is ignored; any message that is `help` once the mention is stripped reaches the command handler as `/help` |
| Bot.HelpCommandText | bot.py:277-283 | `/help` is unchanged by stripping and starts with `/`, so the help fix routes to the command handler |
| Bot.Halves | bot.py:315-317 | a reply without a newline leaves the first half empty and the second the whole reply |
| Bot.HalvesRejoin | bot.py:315-321 | the halves rejoined with a newline are the reply; the first has `n/2` of its `n` lines and the second the rest |

## Left out

- Webex and Dialogflow are not modelled: the HTTP webhooks, `detect_intent_texts`,
  `execute_action`, message posting, the room and person lookups and `app.py`. The bot
  instead returns the messages it would post, as values. The directory that
  `api.people.list` searches is a parameter.
- The layouts of the adaptive cards are not modelled. `generate_edit_response` and
  `generate_add_response` are represented only by the card they are for. The model
  card keeps its fact list and original model, and not its layout.
- `generate_approved_users_response` makes one directory lookup per user. The model
  replies with the user records instead of that text.
- `get_approved_users` is modelled as the user table itself. The database session of
  the source reports a refusal as `InvalidRequestError`; here it is a `Health` value
  or an `available` flag, with no timing or concurrency.
- Bot.HandleCommand: states only the gating and which tables and messages can change;
  the reply of every handler, and what a refused handler session leads to after the
  gate was passed, is stated by `AnswerCommand` and `ChangeCommand`.
- Bot.Compare: on a refusing store it states only that the reply is either the
  resolved one or the no-model text, not which query was refused.
- Bot.SessionRoundTrip: assumes the person and room ids contain no `/` or `.`; Webex
  ids are base64 text, and the source relies on the same property.
- The Unicode parts of Python's `lower()`, `strip()` and `int()` are not modelled:
  case folding is ASCII, whitespace is ASCII whitespace, and `int()` accepts the ASCII
  sign, digits and surrounding spaces (no underscores).
- Attribute order in `vars(self)` is taken to be column order.
- The primary-key check on `switch.id` is not modelled. A new switch, or an edit that
  gives a switch the id another row already holds, is stored as is, rather than
  raising `IntegrityError`. A mapping's own key is an autoincrement integer
  (models.py:47), which the model leaves out; an added mapping cannot clash with it.
- The foreign keys from `mapping.catalyst` and `mapping.meraki` to `switch.id`
  (models.py:48-49) are not modelled; the model treats the source's tables as a store
  that does not enforce them. On a store that enforces them, the commit would raise an
  `IntegrityError` that nothing catches in two places. `add-mapping` of a key that is
  no switch's id would raise where the model replies with the success text.
  `remove-switch` of a switch that a mapping names would raise where the model deletes
  the row.
- `User.privilege` and both ends of a mapping are nullable columns (models.py:35,
  48-49), but the model types them as texts. A NULL privilege would make `is_admin`
  and `can_edit` raise `AttributeError` (models.py:37-41). A NULL mapping end is not
  represented.
- Overflowing an `Integer` column is not modelled: integers are unbounded.
- The reply to a refused `list` or `info` is modelled as the exception it leads to
  (`AttributeError` on the error text). The exception's message is not modelled.

## Findings

| source | as written | input that shows it | evidently intended | confidence | as-written member | corrected member |
|---|---|---|---|---|---|---|
| bot.py:281-283 | after the mention is stripped, `message_text.strip()[0]` indexes the first character without checking that one exists | the message `meercat` (or `meercat meercat`, or only spaces), which the empty-message check at bot.py:265 lets through, raises `IndexError` | a message with nothing left to answer is ignored | not executed | Bot.RouteAsWritten, Bot.BareMentionRaises | Bot.RouteMessage, Bot.RouteMessageMeans |
