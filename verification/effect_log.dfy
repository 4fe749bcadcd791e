/**
 Measures over the effects a run of the form emits and the events it receives:
 how many remote calls were issued, how many completions arrived, and whether
 every published token is immediately followed by the redirect to the dashboard.
 */
module EffectLog {
  import opened AuthTypes

  /** Number of remote calls issued. */
  function CallCount(effs: seq<Effect>): nat
    decreases |effs|
  {
    if effs == [] then 0
    else (if effs[0].RemoteCall? then 1 else 0) + CallCount(effs[1..])
  }

  /** Number of completion events. */
  function CompletionCount(evs: seq<Event>): nat
    decreases |evs|
  {
    if evs == [] then 0
    else (if evs[0].Complete? then 1 else 0) + CompletionCount(evs[1..])
  }

  /**
   Every token publication is immediately followed by navigation to the
   dashboard, and every navigation immediately follows a publication.
   */
  predicate Paired(effs: seq<Effect>)
    decreases |effs|
  {
    if effs == [] then true
    else match effs[0]
      case RemoteCall(_) => Paired(effs[1..])
      case PublishToken(_) => 2 <= |effs| && effs[1] == Navigate(DashboardPath) && Paired(effs[2..])
      case Navigate(_) => false
  }

  lemma {:induction false} CallCountAppend(a: seq<Effect>, b: seq<Effect>)
    ensures CallCount(a + b) == CallCount(a) + CallCount(b)
    decreases |a|
  {
    if a != [] {
      assert (a + b)[1..] == a[1..] + b;
      CallCountAppend(a[1..], b);
    } else {
      assert a + b == b;
    }
  }

  lemma {:induction false} PairedAppend(a: seq<Effect>, b: seq<Effect>)
    requires Paired(a) && Paired(b)
    ensures Paired(a + b)
    decreases |a|
  {
    if a == [] {
      assert a + b == b;
    } else if a[0].RemoteCall? {
      assert (a + b)[1..] == a[1..] + b;
      PairedAppend(a[1..], b);
    } else {
      assert (a + b)[2..] == a[2..] + b;
      PairedAppend(a[2..], b);
    }
  }
}
