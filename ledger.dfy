/**
  The contribution ledger of one song: the total recorded seconds credited
  to each user, and the accounting of a stream of uploaded stems.
 */
module Ledger {

  /** User id to total_seconds. */
  type Contributions = map<string, real>

  /** A user's total; a user without an entry stands at zero. */
  function Total(c: Contributions, user: string): real {
    if user in c then c[user] else 0.0
  }

  /** Credit `seconds` to `user`, creating a zero entry first if the user has none. */
  function Credit(c: Contributions, user: string, seconds: real): (r: Contributions)
    ensures r.Keys == c.Keys + {user}
    ensures r[user] == Total(c, user) + seconds
    ensures forall v :: v in c && v != user ==> r[v] == c[v]
  {
    var withEntry := if user in c then c else c[user := 0.0];
    withEntry[user := withEntry[user] + seconds]
  }

  /** The accounting of one stem: only a positive duration is credited. */
  function Account(c: Contributions, user: string, duration: real): (r: Contributions)
    ensures duration <= 0.0 ==> r == c
    ensures duration > 0.0 ==> r.Keys == c.Keys + {user} && r[user] == Total(c, user) + duration
    ensures forall v :: v in c ==> v in r && r[v] >= c[v]
    ensures forall v :: v in c && v != user ==> r[v] == c[v]
  {
    if duration > 0.0 then Credit(c, user, duration) else c
  }

  /** The stems of one user accounted one after another, in the given order. */
  function AccountAll(c: Contributions, user: string, durations: seq<real>): Contributions
    decreases |durations|
  {
    if durations == [] then c
    else AccountAll(Account(c, user, durations[0]), user, durations[1..])
  }

  /** The part of a duration that the ledger credits. */
  function Positive(d: real): real {
    if d > 0.0 then d else 0.0
  }

  /** The sum of the positive durations. */
  function SumPositive(durations: seq<real>): (r: real)
    ensures r >= 0.0
    decreases |durations|
  {
    if durations == [] then 0.0 else Positive(durations[0]) + SumPositive(durations[1..])
  }

  /** The plain sum of the durations. */
  function Sum(durations: seq<real>): real
    decreases |durations|
  {
    if durations == [] then 0.0 else durations[0] + Sum(durations[1..])
  }

  /** A stream of stems changes only the uploader's entry: it adds exactly the
      sum of the positive durations, and creates the entry only if that sum
      is not zero, that is, if some duration was positive. */
  lemma {:induction false} AccountAllEffect(c: Contributions, user: string, durations: seq<real>)
    ensures AccountAll(c, user, durations)
         == if SumPositive(durations) > 0.0 then c[user := Total(c, user) + SumPositive(durations)] else c
    decreases |durations|
  {
    if durations != [] {
      var d, rest := durations[0], durations[1..];
      var c1 := Account(c, user, d);
      AccountAllEffect(c1, user, rest);
      if d > 0.0 {
        assert Total(c1, user) == Total(c, user) + d;
      }
    }
  }

  /** When every duration is positive, the uploader's total grows by exactly their sum. */
  lemma AccountAllPositive(c: Contributions, user: string, durations: seq<real>)
    requires forall i :: 0 <= i < |durations| ==> durations[i] > 0.0
    ensures Total(AccountAll(c, user, durations), user) == Total(c, user) + Sum(durations)
    ensures forall v :: v in c && v != user ==> v in AccountAll(c, user, durations) && AccountAll(c, user, durations)[v] == c[v]
  {
    AccountAllEffect(c, user, durations);
    SumPositiveOfPositive(durations);
    if durations != [] {
      assert Sum(durations) == durations[0] + Sum(durations[1..]);
    }
  }

  /** On positive durations the credited sum is the plain sum. */
  lemma {:induction false} SumPositiveOfPositive(durations: seq<real>)
    requires forall i :: 0 <= i < |durations| ==> durations[i] > 0.0
    ensures SumPositive(durations) == Sum(durations)
    decreases |durations|
  {
    if durations != [] {
      SumPositiveOfPositive(durations[1..]);
    }
  }

  /** Removing one duration from the stream removes exactly its credited part. */
  lemma {:induction false} SumPositiveRemove(durations: seq<real>, k: nat)
    requires k < |durations|
    ensures SumPositive(durations) == Positive(durations[k]) + SumPositive(durations[..k] + durations[k + 1..])
    decreases |durations|
  {
    if k > 0 {
      var rest := durations[1..];
      SumPositiveRemove(rest, k - 1);
      assert durations[..k] + durations[k + 1..] == [durations[0]] + (rest[..k - 1] + rest[k..]);
    } else {
      assert durations[..k] + durations[k + 1..] == durations[1..];
    }
  }

  /** The credited sum does not depend on the order of the stems. */
  lemma {:induction false} SumPositivePermutation(ds: seq<real>, es: seq<real>)
    requires multiset(ds) == multiset(es)
    ensures SumPositive(ds) == SumPositive(es)
    decreases |ds|
  {
    if ds != [] {
      var d := ds[0];
      assert d in multiset(es);
      var k :| 0 <= k < |es| && es[k] == d;
      var es' := es[..k] + es[k + 1..];
      assert es == es[..k] + [es[k]] + es[k + 1..];
      assert multiset(es) == multiset(es') + multiset{d};
      assert ds == [d] + ds[1..];
      assert multiset(ds) == multiset{d} + multiset(ds[1..]);
      assert multiset(ds[1..]) == multiset(ds) - multiset{d};
      assert multiset(es') == multiset(es) - multiset{d};
      SumPositivePermutation(ds[1..], es');
      SumPositiveRemove(es, k);
    } else {
      assert |es| == |multiset(es)| == 0;
    }
  }

  /** A user's stems accounted in any order leave the same ledger. */
  lemma AccountAllOrderFree(c: Contributions, user: string, ds: seq<real>, es: seq<real>)
    requires multiset(ds) == multiset(es)
    ensures AccountAll(c, user, ds) == AccountAll(c, user, es)
  {
    AccountAllEffect(c, user, ds);
    AccountAllEffect(c, user, es);
    SumPositivePermutation(ds, es);
  }
}
