/** The switch-equivalence resolver (conversion.py:46-197): a relaxing pattern search
    over the catalog, the mapping expander, and the record the bot replies from. */
module Conversion {
  import opened Wrappers
  import opened Text
  import opened Patterns
  import opened Models
  import opened Database

  /** The `-HW` suffix rule (conversion.py:122-123): appended when asked for and the
      model does not already end in "hw", whatever its case. */
  function HwSuffix(model: string, add: bool): (r: string)
    ensures !add ==> r == model
    ensures add ==> EndsWith(Lower(r), "hw")
  {
    if add && !EndsWith(Lower(model), "hw") then
      LowerAppend(model, "-HW");
      assert Lower("-HW") == "-hw";
      model + "-HW"
    else model
  }

  /** The filter values one call of `find_switches_with_filters` queries with, after it
      rebinds `model`, `network_module` and `id` (conversion.py:121-135). */
  function Transform(f: Filters, fuzzy: bool, hw: bool): (r: Filters)
    ensures !fuzzy && !hw ==> r == f
    ensures (r.model == "" <==> f.model == "") && (r.networkModule == "" <==> f.networkModule == "") &&
      (r.id == "" <==> f.id == "")
    ensures !fuzzy ==> r.networkModule == f.networkModule && r.id == f.id
    ensures fuzzy && f.id != "" ==> r.id[0] == '%' && r.id[|r.id| - 1] == '%'
  {
    var model := if f.model != "" then
        (var m := HwSuffix(f.model, hw); if fuzzy then Fuzzy(m) else m)
      else f.model;
    var networkModule := if f.networkModule != "" && fuzzy then Fuzzy(f.networkModule) else f.networkModule;
    var id := if f.id != "" && fuzzy then Fuzzy(f.id) else f.id;
    Filters(id, model, networkModule)
  }

  /** The Meraki test of the retry (conversion.py:141): a model whose first character is
      `m` or `M`. */
  predicate LooksMeraki(model: string) {
    model != "" && LowerChar(model[0]) == 'm'
  }

  /** The filters of every query one call may issue, in order: its own, then those of
      the self-call it makes on finding nothing (conversion.py:140-157). */
  function Stages(f: Filters, fuzzy: bool, expand: bool, hw: bool): (r: seq<Filters>)
    ensures |r| >= 1 && r[0] == Transform(f, fuzzy, hw)
    decreases (if hw then 0 else 2) + (if fuzzy then 0 else 1)
  {
    var s := Transform(f, fuzzy, hw);
    if expand && LooksMeraki(s.model) && !hw then [s] + Stages(s, fuzzy, true, true)
    else if expand && !fuzzy then [s] + Stages(s, true, true, hw)
    else [s]
  }

  /** Running the stages until one finds something: the rows of the first stage with
      hits, or of the last stage, and how many queries that took. */
  function RunLadder(rows: seq<Switch>, stages: seq<Filters>): (r: (seq<Switch>, nat))
    requires |stages| >= 1
    ensures 1 <= r.1 <= |stages|
    ensures r.0 == Select(rows, stages[r.1 - 1])
    ensures forall j :: 0 <= j < r.1 - 1 ==> Select(rows, stages[j]) == []
    ensures r.1 < |stages| ==> r.0 != []
    decreases |stages|
  {
    var hit := Select(rows, stages[0]);
    if hit != [] || |stages| == 1 then (hit, 1)
    else
      var rest := RunLadder(rows, stages[1..]);
      (rest.0, rest.1 + 1)
  }

  /** `find_switches_with_filters` (conversion.py:110-159). `k` is the number of queries
      the request has issued before this call; `k'` the number after it. The store
      error propagates out of the call. */
  method FindSwitchesWithFilters(t: Tables, h: Health, k: nat, fuzzyMatch: bool, expand: bool,
                                 f: Filters, addMerakiHwSuffix: bool)
    returns (r: Result<seq<Switch>, StoreError>, k': nat)
    ensures var ladder := RunLadder(t.switches, Stages(f, fuzzyMatch, expand, addMerakiHwSuffix));
      (r.Success? <==> AnswersAll(h, k, ladder.1)) &&
      (r.Success? ==> r.value == ladder.0 && k' == k + ladder.1)
    decreases (if addMerakiHwSuffix then 0 else 2) + (if fuzzyMatch then 0 else 1)
  {
    var g := RebindFilters(f, fuzzyMatch, addMerakiHwSuffix);
    if !Answers(h, k) {
      return Failure(InvalidRequest), k + 1;
    }
    var switches := Select(t.switches, g);
    LadderStep(t.switches, f, fuzzyMatch, expand, addMerakiHwSuffix);
    if |switches| == 0 && LooksMeraki(g.model) && !addMerakiHwSuffix && expand {
      r, k' := FindSwitchesWithFilters(t, h, k + 1, fuzzyMatch, true, g, true);
      return;
    }
    if |switches| == 0 && !fuzzyMatch && expand {
      r, k' := FindSwitchesWithFilters(t, h, k + 1, true, true, g, addMerakiHwSuffix);
      return;
    }
    return Success(switches), k + 1;
  }

  /** The rebinding of `model`, `network_module` and `id` at the top of
      `find_switches_with_filters` (conversion.py:121-135). */
  method RebindFilters(f: Filters, fuzzyMatch: bool, addMerakiHwSuffix: bool) returns (g: Filters)
    ensures g == Transform(f, fuzzyMatch, addMerakiHwSuffix)
  {
    var model, networkModule, id := f.model, f.networkModule, f.id;
    if model != "" {
      if addMerakiHwSuffix && !EndsWith(Lower(model), "hw") {
        model := model + "-HW";
      }
      if fuzzyMatch {
        model := "%" + Hyphens(model) + "%";
      }
    }
    if networkModule != "" && fuzzyMatch {
      networkModule := "%" + Hyphens(networkModule) + "%";
    }
    if id != "" && fuzzyMatch {
      id := "%" + Hyphens(id) + "%";
    }
    g := Filters(id, model, networkModule);
  }

  /** One step of the ladder: the first stage's hits, unless it found nothing and the
      call retries, in which case the retry's outcome after one more query. */
  lemma LadderStep(rows: seq<Switch>, f: Filters, fuzzy: bool, expand: bool, hw: bool)
    ensures var s := Transform(f, fuzzy, hw);
      var ladder := RunLadder(rows, Stages(f, fuzzy, expand, hw));
      if Select(rows, s) == [] && expand && LooksMeraki(s.model) && !hw then
        var rest := RunLadder(rows, Stages(s, fuzzy, true, true));
        ladder == (rest.0, rest.1 + 1)
      else if Select(rows, s) == [] && expand && !fuzzy then
        var rest := RunLadder(rows, Stages(s, true, true, hw));
        ladder == (rest.0, rest.1 + 1)
      else ladder == (Select(rows, s), 1)
  {
    var s := Transform(f, fuzzy, hw);
    if expand && LooksMeraki(s.model) && !hw {
      assert Stages(f, fuzzy, expand, hw) == [s] + Stages(s, fuzzy, true, true);
      RunLadderCons(rows, s, Stages(s, fuzzy, true, true));
    } else if expand && !fuzzy {
      assert Stages(f, fuzzy, expand, hw) == [s] + Stages(s, true, true, hw);
      RunLadderCons(rows, s, Stages(s, true, true, hw));
    } else {
      assert Stages(f, fuzzy, expand, hw) == [s];
    }
  }

  lemma RunLadderCons(rows: seq<Switch>, s: Filters, rest: seq<Filters>)
    requires |rest| >= 1
    ensures var ladder := RunLadder(rows, [s] + rest);
      if Select(rows, s) == [] then ladder == (RunLadder(rows, rest).0, RunLadder(rows, rest).1 + 1)
      else ladder == (Select(rows, s), 1)
  {
    assert ([s] + rest)[1..] == rest;
  }

  /** `find_switch_by_id` (conversion.py:161-164). */
  method FindSwitchById(t: Tables, h: Health, k: nat, id: string, expand: bool)
    returns (r: Result<seq<Switch>, StoreError>, k': nat)
    ensures !expand ==>
      (r.Success? <==> Answers(h, k)) &&
      (r.Success? ==> r.value == Select(t.switches, Filters(id, "", "")) && k' == k + 1)
    ensures expand ==>
      var exact := Select(t.switches, Filters(id, "", ""));
      var used := if exact != [] then 1 else 2;
      (r.Success? <==> AnswersAll(h, k, used)) &&
      (r.Success? ==>
        r.value == (if exact != [] || id == "" then exact else Select(t.switches, Filters(Fuzzy(id), "", ""))) &&
        k' == k + used)
  {
    IdLadder(id);
    r, k' := FindSwitchesWithFilters(t, h, k, false, expand, Filters(id, "", ""), false);
  }

  /** `find_switch_by_model` (conversion.py:166-169). */
  method FindSwitchByModel(t: Tables, h: Health, k: nat, model: string, expand: bool)
    returns (r: Result<seq<Switch>, StoreError>, k': nat)
    ensures var ladder := RunLadder(t.switches, Stages(Filters("", model, ""), false, expand, false));
      (r.Success? <==> AnswersAll(h, k, ladder.1)) &&
      (r.Success? ==> r.value == ladder.0 && k' == k + ladder.1)
    ensures !expand ==> (r.Success? ==> r.value == Select(t.switches, Filters("", model, "")))
  {
    Unrelaxed(Filters("", model, ""));
    r, k' := FindSwitchesWithFilters(t, h, k, false, expand, Filters("", model, ""), false);
  }

  /** Neither fuzzy nor suffixed, a call queries with its filters as given. */
  lemma Unrelaxed(f: Filters)
    ensures Transform(f, false, false) == f
  {
  }

  /** A search by id alone never tries `-HW` (it has no model): exact, then fuzzy. */
  lemma IdLadder(id: string)
    ensures id != "" ==>
      Stages(Filters(id, "", ""), false, true, false) == [Filters(id, "", ""), Filters(Fuzzy(id), "", "")]
    ensures id == "" ==> Stages(Filters(id, "", ""), false, true, false) == [Filters(id, "", ""), Filters(id, "", "")]
    ensures Stages(Filters(id, "", ""), false, false, false) == [Filters(id, "", "")]
  {
    Unrelaxed(Filters(id, "", ""));
  }

  /** With `expand=False` exactly one query runs; a fuzzy call is always the last stage,
      since its pattern starts with `%` and so never looks like a Meraki model; no call
      issues more than three queries (conversion.py:141-159). */
  lemma StageBounds(f: Filters, fuzzy: bool, expand: bool, hw: bool)
    ensures 1 <= |Stages(f, fuzzy, expand, hw)| <= 3
    ensures !expand ==> |Stages(f, fuzzy, expand, hw)| == 1
    ensures fuzzy ==> |Stages(f, fuzzy, expand, hw)| == 1
    decreases (if hw then 0 else 2) + (if fuzzy then 0 else 1)
  {
    var s := Transform(f, fuzzy, hw);
    if fuzzy {
      assert !LooksMeraki(s.model);
    }
    if expand && LooksMeraki(s.model) && !hw {
      StageBounds(s, fuzzy, true, true);
    } else if expand && !fuzzy {
      StageBounds(s, true, true, hw);
    }
  }

  /** The suffix is never doubled. */
  lemma HwSuffixOnce(model: string)
    ensures HwSuffix(HwSuffix(model, true), true) == HwSuffix(model, true)
  {
  }

  /** The ladder of a top-level search (the resolver and `find_switch_by_model`):
      exact; for a model starting with m/M, then `-HW`, then `-HW` made fuzzy; for any
      other, then fuzzy (conversion.py:122-125, 141-157). */
  lemma TopLevelLadder(f: Filters)
    ensures LooksMeraki(f.model) ==>
      var hw := Transform(f, false, true);
      Stages(f, false, true, false) == [f, hw, Transform(hw, true, true)] &&
      hw.model == f.model + (if EndsWith(Lower(f.model), "hw") then "" else "-HW") &&
      Transform(hw, true, true).model == Fuzzy(hw.model)
    ensures !LooksMeraki(f.model) ==> Stages(f, false, true, false) == [f, Transform(f, true, false)]
  {
    Unrelaxed(f);
    var hw := Transform(f, false, true);
    if LooksMeraki(f.model) {
      HwSuffixOnce(f.model);
      assert hw.model == HwSuffix(f.model, true);
      assert !LooksMeraki(Transform(hw, true, true).model);
      if !EndsWith(Lower(f.model), "hw") {
        assert hw.model == f.model + "-HW";
      } else {
        assert f.model + "" == f.model;
      }
      assert LooksMeraki(hw.model);
      assert Stages(hw, true, true, true) == [Transform(hw, true, true)];
    }
  }

  /** The fuzzy stage selects every row the stage before it selected (conversion.py:
      107-109): widening the patterns loses nothing. */
  lemma FuzzyNeverLosesRows(rows: seq<Switch>, f: Filters, hw: bool)
    requires hw ==> f.model == "" || EndsWith(Lower(f.model), "hw")
    ensures forall sw :: sw in Select(rows, f) ==> sw in Select(rows, Transform(f, true, hw))
    ensures |Select(rows, f)| <= |Select(rows, Transform(f, true, hw))|
  {
    var g := Transform(f, true, hw);
    forall sw | Satisfies(sw, f)
      ensures Satisfies(sw, g)
    {
      if f.model != "" {
        FuzzyWidens(f.model, sw.Get(Model).s);
      }
      if f.networkModule != "" {
        FuzzyWidens(f.networkModule, sw.Get(NetworkModule).s);
      }
      if f.id != "" {
        FuzzyWidens(f.id, sw.Get(Id).s);
      }
    }
    forall sw | sw in Select(rows, f)
      ensures sw in Select(rows, g)
    {
      SelectMeansAllFilters(rows, f, sw);
      SelectMeansAllFilters(rows, g, sw);
    }
    FilterWeaker(rows, sw => Satisfies(sw, f), sw => Satisfies(sw, g));
  }

  /** The other side of every edge whose `fromMeraki` side matches `pattern`, one per
      edge in store order (conversion.py:180-189). */
  function Counterparts(edges: seq<Mapping>, fromMeraki: bool, pattern: string): (r: seq<string>)
    ensures |r| <= |edges|
    decreases |edges|
  {
    if edges == [] then []
    else
      var e := edges[0];
      var here := if fromMeraki then (if Like(pattern, e.meraki) then [e.catalyst] else [])
        else (if Like(pattern, e.catalyst) then [e.meraki] else []);
      here + Counterparts(edges[1..], fromMeraki, pattern)
  }

  /** An id returned is the far side of an edge whose near side matches the pattern. */
  lemma {:induction false} CounterpartsAreEdges(edges: seq<Mapping>, fromMeraki: bool, pattern: string, x: string)
    ensures x in Counterparts(edges, fromMeraki, pattern) <==>
      exists i :: 0 <= i < |edges| &&
        (if fromMeraki then edges[i].catalyst == x && Like(pattern, edges[i].meraki)
         else edges[i].meraki == x && Like(pattern, edges[i].catalyst))
    decreases |edges|
  {
    if edges != [] {
      CounterpartsAreEdges(edges[1..], fromMeraki, pattern, x);
      if x in Counterparts(edges[1..], fromMeraki, pattern) {
        var i :| 0 <= i < |edges[1..]| &&
          (if fromMeraki then edges[1..][i].catalyst == x && Like(pattern, edges[1..][i].meraki)
           else edges[1..][i].meraki == x && Like(pattern, edges[1..][i].catalyst));
        assert edges[i + 1] == edges[1..][i];
      }
      if exists i ::
          0 <= i < |edges| &&
          (if fromMeraki then edges[i].catalyst == x && Like(pattern, edges[i].meraki)
           else edges[i].meraki == x && Like(pattern, edges[i].catalyst))
      {
        var i :| 0 <= i < |edges| &&
          (if fromMeraki then edges[i].catalyst == x && Like(pattern, edges[i].meraki)
           else edges[i].meraki == x && Like(pattern, edges[i].catalyst));
        if i > 0 {
          assert edges[1..][i - 1] == edges[i];
        }
      }
    }
  }

  /** `find_switch_mapping` (conversion.py:170-197): the equivalents of `id` through the
      mapping edges, exact first, then `%id%`, else `None`; `k` counts queries as in
      `FindSwitchesWithFilters`. An empty id has no first character to pick the side by,
      so `id[0]` raises `IndexError` before any query. */
  function FindSwitchMapping(t: Tables, h: Health, k: nat, id: string, fuzzyMatch: bool)
    : (r: (Outcome<Result<Option<seq<string>>, StoreError>>, nat))
    ensures r.0.Raises? <==> id == ""
    ensures r.0.Raises? ==> r.0.exception == "IndexError" && r.1 == k
    ensures r.0.Returns? && r.0.value.Success? && r.0.value.value.Some? ==> r.0.value.value.value != []
    ensures r.0.Returns? ==> r.1 > k
    decreases if fuzzyMatch then 0 else 1
  {
    if id == "" then (Raises("IndexError"), k)
    else
      var search := if fuzzyMatch then Around(id) else id;
      if !Answers(h, k) then (Returns(Failure(InvalidRequest)), k + 1)
      else
        var matches := Counterparts(t.mappings, LowerChar(id[0]) == 'm', search);
        if matches != [] then (Returns(Success(Some(matches))), k + 1)
        else if !fuzzyMatch then FindSwitchMapping(t, h, k + 1, id, true)
        else (Returns(Success(None)), k + 1)
  }

  /** What the expander returns from a store that answers, for any non-empty key: the
      edges the key itself matches, else those `%key%` matches, else `None`; the near side
      is the Meraki side exactly when the key starts with m/M (conversion.py:170-197). */
  lemma MappingOrder(t: Tables, id: string)
    requires id != ""
    ensures var fromMeraki := LowerChar(id[0]) == 'm';
      var exact := Counterparts(t.mappings, fromMeraki, id);
      var around := Counterparts(t.mappings, fromMeraki, Around(id));
      FindSwitchMapping(t, Healthy, 0, id, false).0 ==
        Returns(Success(if exact != [] then Some(exact) else if around != [] then Some(around) else None))
  {
  }

  /** With a wildcard-free key, the exact pass of the expander finds exactly the other
      ends of the rows that hold the key itself (conversion.py:177-188). */
  lemma MappingExactFirst(t: Tables, id: string)
    requires id != "" && Literal(id)
    ensures forall x :: x in Counterparts(t.mappings, true, id) <==>
      exists i :: 0 <= i < |t.mappings| && t.mappings[i].catalyst == x && t.mappings[i].meraki == id
    ensures forall x :: x in Counterparts(t.mappings, false, id) <==>
      exists i :: 0 <= i < |t.mappings| && t.mappings[i].meraki == x && t.mappings[i].catalyst == id
  {
    forall x
      ensures x in Counterparts(t.mappings, true, id) <==>
        exists i :: 0 <= i < |t.mappings| && t.mappings[i].catalyst == x && t.mappings[i].meraki == id
      ensures x in Counterparts(t.mappings, false, id) <==>
        exists i :: 0 <= i < |t.mappings| && t.mappings[i].meraki == x && t.mappings[i].catalyst == id
    {
      CounterpartsAreEdges(t.mappings, true, id, x);
      CounterpartsAreEdges(t.mappings, false, id, x);
      forall i | 0 <= i < |t.mappings|
        ensures Like(id, t.mappings[i].meraki) <==> t.mappings[i].meraki == id
        ensures Like(id, t.mappings[i].catalyst) <==> t.mappings[i].catalyst == id
      {
        LikeLiteral(id, t.mappings[i].meraki);
        LikeLiteral(id, t.mappings[i].catalyst);
      }
    }
  }

  /** The entities the NLU extracted from the request; `""` for a missing one. The
      `Platform` entity is read but never used (conversion.py:50). */
  datatype Fields = Fields(model: string, networkModule: string)

  /** The `data` dict of `find_equivalent_switch` (conversion.py:52-56). */
  datatype MatchResult = MatchResult(matched: bool, modular: Value, switches: seq<Switch>,
                                     matchedModel: Option<string>)

  const Unmatched: MatchResult := MatchResult(false, Bool(false), [], None)

  /** The switches one mapping id expands to: its exact id hits, else its fuzzy id
      search (conversion.py:76-81). An empty id applies no filter at all. */
  function EquivalentsOf(rows: seq<Switch>, id: string): seq<Switch> {
    var exact := Select(rows, Filters(id, "", ""));
    if exact != [] || id == "" then exact else Select(rows, Filters(Fuzzy(id), "", ""))
  }

  /** The expansion of a list of mapping ids, concatenated in mapping order. */
  function EquivalentsOfAll(rows: seq<Switch>, ids: seq<string>): seq<Switch>
    decreases |ids|
  {
    if ids == [] then [] else EquivalentsOfAll(rows, ids[..|ids| - 1]) + EquivalentsOf(rows, ids[|ids| - 1])
  }

  /** The candidates of the request: the top-level search on model and network module. */
  function Candidates(t: Tables, fields: Fields): seq<Switch> {
    RunLadder(t.switches, Stages(Filters("", fields.model, fields.networkModule), false, true, false)).0
  }

  /** What `find_equivalent_switch` returns when the store answers every query: the
      record, or the exception the mapping lookup raises on the single candidate's id.
      An empty text has no first character (`IndexError`) and a value that is not a text
      cannot be indexed (`TypeError`); the handler at conversion.py:99 catches neither. */
  function Resolve(t: Tables, fields: Fields): Outcome<MatchResult> {
    var candidates := Candidates(t, fields);
    if |candidates| == 1 then
      match candidates[0].Get(Id)
      case Str(id) =>
        MappingAgrees(t, Healthy, 0, id, false);
        var mapping := FindSwitchMapping(t, Healthy, 0, id, false).0;
        if mapping.Raises? then Raises(mapping.exception)
        else if mapping.value.value.None? then Returns(MatchResult(true, Bool(false), [], Some(id)))
        else Returns(MatchResult(true, Bool(false), EquivalentsOfAll(t.switches, mapping.value.value.value), Some(id)))
      case _ => Raises("TypeError")
    else if candidates == [] then Returns(Unmatched)
    else Returns(MatchResult(false, candidates[0].Get(Modular), candidates, None))
  }

  /** The record's cases (conversion.py:60-97): one candidate is matched and named, and
      its equivalents are the expansion of its mapping ids, unless its id is an empty
      text or no text, on which the lookup raises; none leaves the defaults; several are
      unmatched, listed in full, and carry the first one's modular flag, which is
      therefore truthy only when the request is ambiguous. */
  lemma ResolveCases(t: Tables, fields: Fields)
    ensures var c := Candidates(t, fields); var r := Resolve(t, fields);
      (r.Raises? <==> |c| == 1 && !(c[0].Get(Id).Str? && c[0].Get(Id).s != "")) &&
      (r.Raises? ==> r.exception == (if c[0].Get(Id) == Str("") then "IndexError" else "TypeError")) &&
      (|c| == 0 ==> r == Returns(Unmatched)) &&
      (|c| == 1 && r.Returns? ==>
        r.value.matched && r.value.matchedModel.Some? && c[0].Get(Id) == Str(r.value.matchedModel.value) &&
        r.value.modular == Bool(false)) &&
      (|c| > 1 ==> r == Returns(MatchResult(false, c[0].Get(Modular), c, None))) &&
      (r.Returns? ==>
        (Truthy(r.value.modular) ==> |r.value.switches| > 1 && !r.value.matched) &&
        (r.value.matched <==> |c| == 1))
  {
    var c := Candidates(t, fields);
    if |c| == 1 && c[0].Get(Id).Str? {
      var id := c[0].Get(Id).s;
      var mapping := FindSwitchMapping(t, Healthy, 0, id, false).0;
      assert mapping.Raises? <==> id == "";
    }
  }

  /** Every equivalent switch has an id that one of the mapping ids matches, exactly or
      through its fuzzy form. */
  lemma {:induction false} EquivalentsMatchIds(rows: seq<Switch>, ids: seq<string>, sw: Switch)
    requires forall i :: 0 <= i < |ids| ==> ids[i] != ""
    requires sw in EquivalentsOfAll(rows, ids)
    ensures sw in rows
    ensures exists i :: 0 <= i < |ids| && (ColumnLike(sw, Id, ids[i]) || ColumnLike(sw, Id, Fuzzy(ids[i])))
    decreases |ids|
  {
    var init := ids[..|ids| - 1];
    var last := ids[|ids| - 1];
    if sw in EquivalentsOfAll(rows, init) {
      EquivalentsMatchIds(rows, init, sw);
      var i :| 0 <= i < |init| && (ColumnLike(sw, Id, init[i]) || ColumnLike(sw, Id, Fuzzy(init[i])));
      assert ids[i] == init[i];
    } else {
      assert sw in EquivalentsOf(rows, last);
      IdLadder(last);
      SelectMeansAllFilters(rows, Filters(last, "", ""), sw);
      SelectMeansAllFilters(rows, Filters(Fuzzy(last), "", ""), sw);
    }
  }

  /** One turn of the loop of `find_equivalent_switch` (conversion.py:76-82): the exact
      hits of a mapping id, or its expanded search when there are none. */
  method ExpandOne(t: Tables, h: Health, k: nat, mappingId: string)
    returns (r: Result<seq<Switch>, StoreError>, k': nat)
    ensures r.Success? ==> r.value == EquivalentsOf(t.switches, mappingId)
    ensures r.Success? <==> AnswersAll(h, k, if Select(t.switches, Filters(mappingId, "", "")) == [] then 3 else 1)
  {
    var matches;
    matches, k' := FindSwitchById(t, h, k, mappingId, false);
    if matches.Failure? {
      return Failure(InvalidRequest), k';
    }
    var found := matches.value;
    if |found| == 0 {
      var more;
      more, k' := FindSwitchById(t, h, k', mappingId, true);
      if more.Failure? {
        return Failure(InvalidRequest), k';
      }
      assert found + more.value == more.value;
      found := found + more.value;
    }
    r := Success(found);
  }

  /** The loop of `find_equivalent_switch` over the mapping ids (conversion.py:74-82),
      concatenating each id's switches in mapping order. */
  method ExpandMappings(t: Tables, h: Health, k: nat, ids: seq<string>)
    returns (r: Result<seq<Switch>, StoreError>, k': nat)
    ensures r.Success? ==> r.value == EquivalentsOfAll(t.switches, ids)
    ensures h.Healthy? ==> r.Success?
  {
    k' := k;
    var equivalent: seq<Switch> := [];
    for i := 0 to |ids|
      invariant equivalent == EquivalentsOfAll(t.switches, ids[..i])
    {
      var found;
      found, k' := ExpandOne(t, h, k', ids[i]);
      if found.Failure? {
        return Failure(InvalidRequest), k';
      }
      assert ids[..i + 1][..i] == ids[..i];
      equivalent := equivalent + found.value;
    }
    assert ids[..|ids|] == ids;
    r := Success(equivalent);
  }

  /** `find_equivalent_switch` (conversion.py:46-105). A store error ends the request
      and returns the record as built so far (conversion.py:99-102); the exception of the
      mapping lookup on a bad id is not caught. */
  method FindEquivalentSwitch(t: Tables, h: Health, fields: Fields) returns (out: Outcome<MatchResult>)
    ensures h.Healthy? ==> out == Resolve(t, fields)
    ensures out.Raises? ==> out == Resolve(t, fields)
    ensures out.Returns? && out != Resolve(t, fields) ==>
      !out.value.matched && out.value.modular == Bool(false) && out.value.switches == [] &&
      (out.value.matchedModel == None ||
       (Resolve(t, fields).Returns? && out.value.matchedModel == Resolve(t, fields).value.matchedModel))
  {
    var data := Unmatched;
    out := Returns(data);
    var requested, k := FindSwitchesWithFilters(t, h, 0, false, true, Filters("", fields.model, fields.networkModule), false);
    if requested.Failure? {
      return;
    }
    var candidates := requested.value;
    assert candidates == Candidates(t, fields);
    if |candidates| == 1 {
      var key := candidates[0].Get(Id);
      if !key.Str? {
        return Raises("TypeError");
      }
      var id := key.s;
      data := data.(matchedModel := Some(id));
      MappingAgrees(t, h, k, id, false);
      var call := FindSwitchMapping(t, h, k, id, false);
      var mapping := call.0;
      k := call.1;
      if mapping.Raises? {
        return Raises(mapping.exception);
      }
      if mapping.value.Failure? {
        return Returns(data);
      }
      if mapping.value.value.None? {
        return Returns(data.(matched := true));
      }
      var equivalent;
      equivalent, k := ExpandMappings(t, h, k, mapping.value.value.value);
      if equivalent.Failure? {
        return Returns(data);
      }
      data := data.(switches := equivalent.value, matched := true);
    } else if |candidates| == 0 {
      return;
    } else {
      data := data.(switches := candidates, matched := false);
    }
    if |candidates| > 1 {
      data := data.(modular := candidates[0].Get(Modular));
    }
    out := Returns(data);
  }

  /** A mapping lookup the store answered gives what an always-answering store gives,
      whatever the query count; an always-answering store answers it. */
  lemma MappingAgrees(t: Tables, h: Health, k: nat, id: string, fuzzyMatch: bool)
    ensures var r := FindSwitchMapping(t, h, k, id, fuzzyMatch).0;
      r.Raises? || r.value.Success? ==> r == FindSwitchMapping(t, Healthy, 0, id, fuzzyMatch).0
    ensures var r := FindSwitchMapping(t, h, k, id, fuzzyMatch).0;
      h.Healthy? ==> r.Raises? || r.value.Success?
    decreases if fuzzyMatch then 0 else 1
  {
    if !fuzzyMatch && id != "" {
      MappingAgrees(t, h, k + 1, id, true);
      MappingAgrees(t, Healthy, 1, id, true);
    }
  }
}
