/**
 The development switches of `src/config/featureFlags.ts`: a fixed table of
 named booleans, a lookup by name, and the list of the names switched on,
 in declaration order.
 */
module FeatureFlags {

  datatype FlagKey = UnlockAllModules | DebugSpectralAnalysis | ShowPerformanceMetrics

  /** The flag table, in declaration order. */
  const Flags: seq<(FlagKey, bool)> := [
    (UnlockAllModules, true),
    (DebugSpectralAnalysis, false),
    (ShowPerformanceMetrics, false)
  ]

  /** `isFeatureEnabled`: the value the table gives the flag. */
  function IsFeatureEnabled(flag: FlagKey): (enabled: bool)
    ensures exists i :: 0 <= i < |Flags| && Flags[i] == (flag, enabled)
  {
    match flag
    case UnlockAllModules => assert Flags[0] == (flag, true); true
    case DebugSpectralAnalysis => assert Flags[1] == (flag, false); false
    case ShowPerformanceMetrics => assert Flags[2] == (flag, false); false
  }

  /** The keys of the entries whose value is true, in table order. */
  function EnabledKeys(entries: seq<(FlagKey, bool)>): (keys: seq<FlagKey>)
    ensures |keys| <= |entries|
    ensures forall k :: k in keys <==> exists i :: 0 <= i < |entries| && entries[i] == (k, true)
  {
    if |entries| == 0 then []
    else
      var rest := EnabledKeys(entries[1..]);
      assert forall i :: 1 <= i < |entries| ==> entries[i] == entries[1..][i - 1];
      if entries[0].1 then [entries[0].0] + rest else rest
  }

  /** `getEnabledFeatures`: the flags switched on. */
  function GetEnabledFeatures(): (keys: seq<FlagKey>)
    ensures forall k :: k in keys ==> exists i :: 0 <= i < |Flags| && Flags[i] == (k, true)
  {
    EnabledKeys(Flags)
  }

  /*---------------------------------------------------------------------------
    Properties
   ---------------------------------------------------------------------------*/

  /** Every flag appears in the table exactly once. */
  predicate KeysDistinct(entries: seq<(FlagKey, bool)>) {
    forall i, j :: 0 <= i < j < |entries| ==> entries[i].0 != entries[j].0
  }

  /** The table has an entry for `k`. */
  predicate Declared(entries: seq<(FlagKey, bool)>, k: FlagKey) {
    exists i :: 0 <= i < |entries| && entries[i].0 == k
  }

  lemma TableListsEveryFlagOnce()
    ensures KeysDistinct(Flags)
    ensures forall k: FlagKey :: Declared(Flags, k)
  {
    forall k: FlagKey
      ensures Declared(Flags, k)
    {
      match k
      case UnlockAllModules => assert Flags[0].0 == k;
      case DebugSpectralAnalysis => assert Flags[1].0 == k;
      case ShowPerformanceMetrics => assert Flags[2].0 == k;
    }
  }

  /** The lookup agrees with every table entry. */
  lemma LookupMatchesTable()
    ensures forall i :: 0 <= i < |Flags| ==> IsFeatureEnabled(Flags[i].0) == Flags[i].1
  {
    TableListsEveryFlagOnce();
  }

  /** A flag is listed as enabled exactly when the lookup says it is on. */
  lemma EnabledListMatchesLookup(flag: FlagKey)
    ensures flag in GetEnabledFeatures() <==> IsFeatureEnabled(flag)
  {
    TableListsEveryFlagOnce();
    LookupMatchesTable();
    var i :| 0 <= i < |Flags| && Flags[i] == (flag, IsFeatureEnabled(flag));
    if flag in GetEnabledFeatures() {
      var j :| 0 <= j < |Flags| && Flags[j] == (flag, true);
      assert i == j;
    }
  }

  /** The enabled list of two tables joined is the two enabled lists joined: table order is kept. */
  lemma {:induction false} EnabledKeysAppend(a: seq<(FlagKey, bool)>, b: seq<(FlagKey, bool)>)
    ensures EnabledKeys(a + b) == EnabledKeys(a) + EnabledKeys(b)
  {
    if |a| > 0 {
      assert (a + b)[1..] == a[1..] + b;
      EnabledKeysAppend(a[1..], b);
    } else {
      assert a + b == b;
    }
  }

  /** With the shipped table only the unlock-all switch is on. */
  lemma OnlyUnlockAllIsEnabled()
    ensures GetEnabledFeatures() == [UnlockAllModules]
  {
    assert Flags == [Flags[0]] + [Flags[1]] + [Flags[2]];
    EnabledKeysAppend([Flags[0]] + [Flags[1]], [Flags[2]]);
    EnabledKeysAppend([Flags[0]], [Flags[1]]);
  }
}
