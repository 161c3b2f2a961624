/** The relational store the bot talks to, as in-memory tables: rows in store order,
    queries as order-preserving filters, and a fault model for the store refusing a
    request (the `InvalidRequestError` that editing.py and conversion.py catch). */
module Database {
  import opened Wrappers
  import opened Patterns
  import opened Models

  /** The rows among `xs` that satisfy `P`, in store order: `query(...).filter(P).all()`. */
  function Filter<T>(xs: seq<T>, P: T -> bool): (r: seq<T>)
    ensures |r| <= |xs|
    ensures forall i :: 0 <= i < |r| ==> P(r[i])
    decreases |xs|
  {
    if xs == [] then [] else (if P(xs[0]) then [xs[0]] else []) + Filter(xs[1..], P)
  }

  lemma {:induction false} FilterMembership<T>(xs: seq<T>, P: T -> bool, x: T)
    ensures x in Filter(xs, P) <==> x in xs && P(x)
    decreases |xs|
  {
    if xs != [] {
      FilterMembership(xs[1..], P, x);
      assert xs == [xs[0]] + xs[1..];
    }
  }

  lemma {:induction false} FilterAppend<T>(a: seq<T>, b: seq<T>, P: T -> bool)
    ensures Filter(a + b, P) == Filter(a, P) + Filter(b, P)
    decreases |a|
  {
    if a != [] {
      assert (a + b)[1..] == a[1..] + b;
      FilterAppend(a[1..], b, P);
    } else {
      assert a + b == b;
    }
  }

  /** A filter every row passes selects the whole table. */
  lemma {:induction false} FilterAll<T>(xs: seq<T>, P: T -> bool)
    requires forall i :: 0 <= i < |xs| ==> P(xs[i])
    ensures Filter(xs, P) == xs
    decreases |xs|
  {
    if xs != [] {
      FilterAll(xs[1..], P);
    }
  }

  /** A weaker filter never selects fewer rows. */
  lemma {:induction false} FilterWeaker<T>(xs: seq<T>, P: T -> bool, Q: T -> bool)
    requires forall i :: 0 <= i < |xs| && P(xs[i]) ==> Q(xs[i])
    ensures |Filter(xs, P)| <= |Filter(xs, Q)|
    decreases |xs|
  {
    if xs != [] {
      FilterWeaker(xs[1..], P, Q);
    }
  }

  /** The complement of a row filter. */
  function Not<T>(P: T -> bool): T -> bool {
    x => !P(x)
  }

  /** The first position whose row satisfies `P`, or `|xs|` if none does: where the
      object `query(...).all()[0]` sits in the table. */
  method FirstMatch<T>(xs: seq<T>, P: T -> bool) returns (i: nat)
    ensures i <= |xs| && (i < |xs| ==> P(xs[i]))
    ensures forall j :: 0 <= j < i ==> !P(xs[j])
  {
    i := 0;
    while i < |xs| && !P(xs[i])
      invariant i <= |xs|
      invariant forall j :: 0 <= j < i ==> !P(xs[j])
    {
      i := i + 1;
    }
  }

  /** A filter selects nothing exactly when no row satisfies it. */
  lemma NoneSelected<T>(xs: seq<T>, P: T -> bool)
    ensures |Filter(xs, P)| == 0 <==> forall i :: 0 <= i < |xs| ==> !P(xs[i])
    ensures |Filter(xs, P)| == 0 ==> Filter(xs, Not(P)) == xs
  {
    if |Filter(xs, P)| == 0 {
      forall i | 0 <= i < |xs|
        ensures !P(xs[i])
      {
        FilterMembership(xs, P, xs[i]);
      }
      FilterAll(xs, Not(P));
    } else {
      var x := Filter(xs, P)[0];
      FilterMembership(xs, P, x);
    }
  }

  /** Deleting the one row a filter selects leaves exactly the rows it rejects: the
      table after `db_session.delete(rows[0])` when the query returned a single row. */
  lemma {:induction false} DeleteUnique<T>(xs: seq<T>, P: T -> bool, i: nat)
    requires i < |xs| && P(xs[i]) && |Filter(xs, P)| == 1
    ensures xs[..i] + xs[i + 1..] == Filter(xs, Not(P))
    decreases |xs|
  {
    if i == 0 {
      NoneSelected(xs[1..], P);
    } else {
      assert xs[1..][i - 1] == xs[i];
      NoneSelected(xs[1..], P);
      assert !P(xs[0]);
      DeleteUnique(xs[1..], P, i - 1);
      assert xs[..i] == [xs[0]] + xs[1..][..i - 1];
      assert xs[i + 1..] == xs[1..][i..];
    }
  }

  /** The search fields of `find_switches_with_filters`; `""` is an absent filter, as
      both `None` and `''` are skipped (conversion.py:121, 127, 132). */
  datatype Filters = Filters(id: string, model: string, networkModule: string)

  /** `Switch.<column>.like(pattern)`: SQL NULL and non-text values match no pattern. */
  predicate ColumnLike(sw: Switch, c: Column, pattern: string) {
    sw.Get(c).Str? && Like(pattern, sw.Get(c).s)
  }

  /** The conjunction of the filters that are present (conversion.py:118-135). */
  predicate Satisfies(sw: Switch, f: Filters) {
    (f.model != "" ==> ColumnLike(sw, Model, f.model)) &&
    (f.networkModule != "" ==> ColumnLike(sw, NetworkModule, f.networkModule)) &&
    (f.id != "" ==> ColumnLike(sw, Id, f.id))
  }

  /** `switches.all()` for the filters `f`, in store order. */
  function Select(rows: seq<Switch>, f: Filters): seq<Switch> {
    Filter(rows, sw => Satisfies(sw, f))
  }

  /** Only present filters apply, they combine with AND, and with none every row is
      returned (conversion.py:118-138). */
  lemma SelectMeansAllFilters(rows: seq<Switch>, f: Filters, sw: Switch)
    ensures sw in Select(rows, f) <==>
      sw in rows &&
      (f.model != "" ==> ColumnLike(sw, Model, f.model)) &&
      (f.networkModule != "" ==> ColumnLike(sw, NetworkModule, f.networkModule)) &&
      (f.id != "" ==> ColumnLike(sw, Id, f.id))
    ensures f == Filters("", "", "") ==> Select(rows, f) == rows
  {
    FilterMembership(rows, sw => Satisfies(sw, f), sw);
    if f == Filters("", "", "") {
      FilterAll(rows, sw => Satisfies(sw, f));
    }
  }

  /** The store's tables at one moment. */
  datatype Tables = Tables(switches: seq<Switch>, mappings: seq<Mapping>, users: seq<User>)

  /** Whether the store answers. `FailsAfter(n)` answers the first `n` queries of a
      request and refuses the rest, as a store being flooded with requests does. */
  datatype Health = Healthy | FailsAfter(answered: nat)

  /** Whether query number `k` (counting from 0) of a request is answered. */
  predicate Answers(h: Health, k: nat) {
    h.Healthy? || k < h.answered
  }

  /** Whether the `n` queries numbered `k` to `k + n - 1` are all answered. */
  predicate AnswersAll(h: Health, k: nat, n: nat) {
    h.Healthy? || k + n <= h.answered
  }

  lemma AnswersAllStep(h: Health, k: nat, n: nat)
    ensures AnswersAll(h, k, n + 1) <==> Answers(h, k) && AnswersAll(h, k + 1, n)
  {
  }

  /** The store refused a request (`InvalidRequestError`). */
  datatype StoreError = InvalidRequest

  /** The reply every editor operation gives when the store refuses. */
  const ErrorReply: string := "Encountered an error please try again later."

  /** Users' ids are the primary key of the `user` table (models.py:34). */
  predicate UniqueIds(users: seq<User>) {
    forall i, j :: 0 <= i < j < |users| ==> users[i].id != users[j].id
  }

  /** The store that editing operations change in place. */
  class Store {
    var switches: seq<Switch>
    var mappings: seq<Mapping>
    var users: seq<User>

    /** The primary key of `user` holds. */
    predicate Valid()
      reads this
    {
      UniqueIds(users)
    }

    function Snapshot(): (t: Tables)
      reads this
      ensures t.switches == switches && t.mappings == mappings && t.users == users
    {
      Tables(switches, mappings, users)
    }

    constructor (t: Tables)
      requires UniqueIds(t.users)
      ensures Valid() && Snapshot() == t
    {
      switches := t.switches;
      mappings := t.mappings;
      users := t.users;
    }
  }
}
