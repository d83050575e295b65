/**
 * The instance search of the file view model (OnSearchInstances in
 * RszFileViewModel.cs): one pass over the payload's instances that keeps
 * those passing every enabled check (instance name, some field name, some
 * field value), memoizing the field-name verdict per class `typeId`.
 */
module Search {
  import opened Wrappers
  import opened Schema

  /**
   * A TextMatcher: whether its query is enabled and the text test it
   * applies (the matching options are inside `isMatch`).
   */
  datatype Matcher = Matcher(enable: bool, isMatch: string -> bool)

  /**
   * One value slot of an instance: a null reference (`ToString()` on it
   * throws NullReferenceException), or a value whose `ToString()` gives
   * `text`, None standing for null text.
   */
  datatype FieldValue = Null | Present(text: Option<string>)

  /**
   * An instance of the payload: its name, its class descriptor (whose
   * `fields` are the instance's fields) and its values.
   */
  datatype Instance = Instance(name: string, cls: RszClass, values: seq<FieldValue>)

  /** An instance carries one value per field of its class. */
  predicate WellFormed(s: seq<Instance>) {
    forall k :: 0 <= k < |s| ==> |s[k].values| == |s[k].cls.fields|
  }

  /** The class descriptors of a list of instances. */
  ghost function Classes(s: seq<Instance>): set<RszClass> {
    set k | 0 <= k < |s| :: s[k].cls
  }

  /** The instance-name check: passes when disabled. */
  predicate NamePasses(byName: Matcher, instance: Instance) {
    !byName.enable || byName.isMatch(instance.name)
  }

  /** Some field name of the class matches. */
  predicate FieldNameMatches(byField: Matcher, cls: RszClass) {
    exists j :: 0 <= j < |cls.fields| && byField.isMatch(cls.fields[j].name)
  }

  /** A value whose text is non-null and matches. */
  predicate Hit(byValue: Matcher, value: FieldValue) {
    value.Present? && value.text.Some? && byValue.isMatch(value.text.value)
  }

  /** Some field's value has a non-null text that matches, wherever it is. */
  predicate FieldValueMatches(byValue: Matcher, instance: Instance) {
    exists i :: 0 <= i < |instance.cls.fields| && i < |instance.values| && Hit(byValue, instance.values[i])
  }

  /**
   * The value scan reaches position `i`: every value before it is a
   * non-null value that does not match (a match stops the scan, a null
   * value throws).
   */
  predicate ScanReaches(byValue: Matcher, instance: Instance, i: int)
    requires i <= |instance.values|
  {
    forall k :: 0 <= k < i ==> instance.values[k].Present? && !Hit(byValue, instance.values[k])
  }

  /** The value scan stops at a match. */
  predicate ValueFound(byValue: Matcher, instance: Instance) {
    exists i :: 0 <= i < |instance.cls.fields| && i < |instance.values|
      && ScanReaches(byValue, instance, i) && Hit(byValue, instance.values[i])
  }

  /** The value scan reaches a null value, and `ToString()` throws. */
  predicate ValueThrows(byValue: Matcher, instance: Instance) {
    exists i :: 0 <= i < |instance.cls.fields| && i < |instance.values|
      && ScanReaches(byValue, instance, i) && instance.values[i].Null?
  }

  /**
   * The memo after the first `n` instances: the verdict recorded for a
   * `typeId` when an instance of it first reaches the field-name check,
   * and kept for every later instance with that `typeId`.
   */
  ghost function MemoAfter(s: seq<Instance>, byName: Matcher, byField: Matcher, n: nat): map<uint32, bool>
    requires n <= |s|
    reads Classes(s)
  {
    if n == 0 then map[]
    else
      var memo := MemoAfter(s, byName, byField, n - 1);
      var instance := s[n - 1];
      assert instance.cls in Classes(s);
      if byField.enable && NamePasses(byName, instance) && instance.cls.typeId !in memo then
        memo[instance.cls.typeId := FieldNameMatches(byField, instance.cls)]
      else memo
  }

  /** Instance `j` is kept: it passes the name check, the (memoized) field-name check and the value check. */
  ghost predicate Kept(s: seq<Instance>, byName: Matcher, byField: Matcher, byValue: Matcher, j: nat)
    requires j < |s|
    reads Classes(s)
  {
    assert s[j].cls in Classes(s);
    && NamePasses(byName, s[j])
    && (byField.enable ==> MemoAfter(s, byName, byField, j + 1)[s[j].cls.typeId])
    && (!byValue.enable || ValueFound(byValue, s[j]))
  }

  /**
   * Instance `j` aborts the search: it passes the name and (memoized)
   * field-name checks, and its value scan throws.
   */
  ghost predicate Aborts(s: seq<Instance>, byName: Matcher, byField: Matcher, byValue: Matcher, j: nat)
    requires j < |s|
    reads Classes(s)
  {
    assert s[j].cls in Classes(s);
    && NamePasses(byName, s[j])
    && (byField.enable ==> MemoAfter(s, byName, byField, j + 1)[s[j].cls.typeId])
    && byValue.enable && ValueThrows(byValue, s[j])
  }

  /**
   * Where the search over the first `n` instances stops: at the first
   * instance that aborts it, or at `n` when none does.
   */
  ghost function StopsAt(s: seq<Instance>, byName: Matcher, byField: Matcher, byValue: Matcher, n: nat): (stop: nat)
    requires n <= |s|
    reads Classes(s)
    ensures stop <= n
    ensures stop < n ==> Aborts(s, byName, byField, byValue, stop)
    ensures forall k :: 0 <= k < stop ==> !Aborts(s, byName, byField, byValue, k)
  {
    if n == 0 then 0
    else
      var stop := StopsAt(s, byName, byField, byValue, n - 1);
      if stop < n - 1 || Aborts(s, byName, byField, byValue, n - 1) then stop else n
  }

  /** The instances among the first `n` that are kept, in list order. */
  ghost function Expected(s: seq<Instance>, byName: Matcher, byField: Matcher, byValue: Matcher, n: nat)
    : seq<Instance>
    requires n <= |s|
    reads Classes(s)
  {
    if n == 0 then []
    else
      Expected(s, byName, byField, byValue, n - 1)
      + (if Kept(s, byName, byField, byValue, n - 1) then [s[n - 1]] else [])
  }

  /** The positions of the kept instances among the first `n`, increasing. */
  ghost function KeptIndices(s: seq<Instance>, byName: Matcher, byField: Matcher, byValue: Matcher, n: nat)
    : seq<nat>
    requires n <= |s|
    reads Classes(s)
  {
    if n == 0 then []
    else
      KeptIndices(s, byName, byField, byValue, n - 1)
      + (if Kept(s, byName, byField, byValue, n - 1) then [n - 1] else [])
  }

  /** Instance `j` reaches the field-name check with class `typeId`. */
  ghost predicate Reaches(s: seq<Instance>, byName: Matcher, j: int, typeId: uint32)
    requires 0 <= j < |s|
    reads Classes(s)
  {
    assert s[j].cls in Classes(s);
    NamePasses(byName, s[j]) && s[j].cls.typeId == typeId
  }

  /**
   * A `typeId` is in the memo exactly when some instance of it reached
   * the field-name check (with that check enabled), and its verdict is
   * that of the FIRST instance that did.
   */
  lemma {:induction false} MemoIsFirstVerdict(s: seq<Instance>, byName: Matcher, byField: Matcher, n: nat, typeId: uint32)
    requires n <= |s|
    ensures typeId in MemoAfter(s, byName, byField, n) <==>
      byField.enable && exists j :: 0 <= j < n && Reaches(s, byName, j, typeId)
    ensures typeId in MemoAfter(s, byName, byField, n) ==>
      exists j :: 0 <= j < n && Reaches(s, byName, j, typeId)
        && (forall k :: 0 <= k < j ==> !Reaches(s, byName, k, typeId))
        && MemoAfter(s, byName, byField, n)[typeId] == FieldNameMatches(byField, s[j].cls)
  {
    if n > 0 {
      MemoIsFirstVerdict(s, byName, byField, n - 1, typeId);
      var memo := MemoAfter(s, byName, byField, n - 1);
      assert s[n - 1].cls in Classes(s);
      if byField.enable && Reaches(s, byName, n - 1, typeId) && typeId !in memo {
        assert forall k :: 0 <= k < n - 1 ==> !Reaches(s, byName, k, typeId);
      }
    }
  }

  /** Every instance of one class shares that class's descriptor, as the parser's registry provides. */
  ghost predicate SharedDescriptors(s: seq<Instance>)
    reads Classes(s)
  {
    forall a, b :: 0 <= a < |s| && 0 <= b < |s| && s[a].cls.typeId == s[b].cls.typeId ==> s[a].cls == s[b].cls
  }

  /**
   * When instances of one `typeId` share their descriptor, the memo is
   * invisible: an instance is kept exactly when it passes every enabled
   * check on its own.
   */
  lemma KeptIffAllChecksPass(s: seq<Instance>, byName: Matcher, byField: Matcher, byValue: Matcher, j: nat)
    requires j < |s| && SharedDescriptors(s)
    ensures Kept(s, byName, byField, byValue, j) <==>
      && NamePasses(byName, s[j])
      && (!byField.enable || FieldNameMatches(byField, s[j].cls))
      && (!byValue.enable || ValueFound(byValue, s[j]))
  {
    assert s[j].cls in Classes(s);
    if byField.enable && NamePasses(byName, s[j]) {
      MemoIsFirstVerdict(s, byName, byField, j + 1, s[j].cls.typeId);
      assert Reaches(s, byName, j, s[j].cls.typeId);
    }
  }

  /**
   * The result is the subsequence of the list at the kept positions: the
   * positions increase, so order is kept and no instance is added twice,
   * and a position is among them exactly when its instance is kept.
   */
  lemma {:induction false} ExpectedIsSubsequence(s: seq<Instance>, byName: Matcher, byField: Matcher, byValue: Matcher, n: nat)
    requires n <= |s|
    ensures
      var found := Expected(s, byName, byField, byValue, n);
      var picked := KeptIndices(s, byName, byField, byValue, n);
      && |picked| == |found|
      && (forall t :: 0 <= t < |picked| ==> picked[t] < n && found[t] == s[picked[t]])
      && (forall t, u :: 0 <= t < u < |picked| ==> picked[t] < picked[u])
      && (forall j :: 0 <= j < n ==> (j in picked <==> Kept(s, byName, byField, byValue, j)))
  {
    if n > 0 {
      ExpectedIsSubsequence(s, byName, byField, byValue, n - 1);
    }
  }

  /**
   * The search stops at the first instance that aborts it, or at the end of
   * the list when none does.
   */
  lemma FirstAbortStops(s: seq<Instance>, byName: Matcher, byField: Matcher, byValue: Matcher, j: nat)
    requires j <= |s|
    requires forall k :: 0 <= k < j ==> !Aborts(s, byName, byField, byValue, k)
    requires j < |s| ==> Aborts(s, byName, byField, byValue, j)
    ensures StopsAt(s, byName, byField, byValue, |s|) == j
  {
  }

  /** A scan cannot both stop at a match and throw. */
  lemma ScanOutcomesExclusive(byValue: Matcher, instance: Instance)
    ensures !(ValueFound(byValue, instance) && ValueThrows(byValue, instance))
  {
  }

  /**
   * When some value matches and no null value is reached before the first
   * match, the scan stops at a match.
   */
  lemma {:induction false} ScanReachesFirstHit(byValue: Matcher, instance: Instance, h: nat)
    requires h < |instance.cls.fields| && h < |instance.values| && Hit(byValue, instance.values[h])
    requires !ValueThrows(byValue, instance)
    ensures ValueFound(byValue, instance)
  {
    var k := 0;
    while !Hit(byValue, instance.values[k])
      invariant 0 <= k <= h
      invariant ScanReaches(byValue, instance, k)
      decreases h - k
    {
      k := k + 1;
    }
    assert ScanReaches(byValue, instance, k) && Hit(byValue, instance.values[k]);
  }

  /**
   * The scan stops at a match exactly when some value matches and the scan
   * does not throw first: a null value is harmless only after a match.
   */
  lemma ValueFoundIffMatchesWithoutThrow(byValue: Matcher, instance: Instance)
    ensures ValueFound(byValue, instance) <==> FieldValueMatches(byValue, instance) && !ValueThrows(byValue, instance)
  {
    ScanOutcomesExclusive(byValue, instance);
    if FieldValueMatches(byValue, instance) && !ValueThrows(byValue, instance) {
      var h :| 0 <= h < |instance.cls.fields| && h < |instance.values| && Hit(byValue, instance.values[h]);
      ScanReachesFirstHit(byValue, instance, h);
    }
  }

  /** Without null values the scan never throws, and it finds a match iff some value matches. */
  lemma NoNullNoThrow(byValue: Matcher, instance: Instance)
    requires forall i :: 0 <= i < |instance.values| ==> instance.values[i].Present?
    ensures !ValueThrows(byValue, instance)
    ensures ValueFound(byValue, instance) <==> FieldValueMatches(byValue, instance)
  {
    ValueFoundIffMatchesWithoutThrow(byValue, instance);
  }

  /** The field-name test of one class: scans its fields up to the first match. */
  method MatchFieldName(byField: Matcher, cls: RszClass) returns (matched: bool)
    ensures matched == FieldNameMatches(byField, cls)
  {
    matched := false;
    var j := 0;
    while j < |cls.fields|
      invariant 0 <= j <= |cls.fields|
      invariant forall k :: 0 <= k < j ==> !byField.isMatch(cls.fields[k].name)
    {
      if byField.isMatch(cls.fields[j].name) {
        matched := true;
        break;
      }
      j := j + 1;
    }
  }

  /**
   * The field-value test of one instance: scans its values up to the first
   * non-null text that matches; `thrown` when it reaches a null value first.
   */
  method MatchFieldValue(byValue: Matcher, instance: Instance) returns (matched: bool, thrown: bool)
    requires |instance.values| == |instance.cls.fields|
    ensures matched <==> ValueFound(byValue, instance)
    ensures thrown <==> ValueThrows(byValue, instance)
  {
    matched, thrown := false, false;
    var i := 0;
    while i < |instance.cls.fields|
      invariant 0 <= i <= |instance.cls.fields|
      invariant ScanReaches(byValue, instance, i)
    {
      var value := instance.values[i];
      if value.Null? {
        thrown := true;
        ScanOutcomesExclusive(byValue, instance);
        return;
      }
      if value.text.Some? && byValue.isMatch(value.text.value) {
        matched := true;
        ScanOutcomesExclusive(byValue, instance);
        return;
      }
      i := i + 1;
    }
  }

  /**
   * One turn of the loop over the instance list: the checks in order, each
   * failing one ending the turn (`continue`), the memo consulted before a
   * class's field names are scanned and updated after a scan. `scanned`
   * says whether the field names were scanned; `thrown`, that the value
   * scan threw, which ends the whole search.
   */
  method CheckInstance(instance: Instance, byName: Matcher, byField: Matcher, byValue: Matcher,
                       memo: map<uint32, bool>)
    returns (keep: bool, thrown: bool, memoAfter: map<uint32, bool>, ghost scanned: bool)
    requires |instance.values| == |instance.cls.fields|
    ensures scanned <==> byField.enable && NamePasses(byName, instance) && instance.cls.typeId !in memo
    ensures memoAfter == if scanned then memo[instance.cls.typeId := FieldNameMatches(byField, instance.cls)] else memo
    ensures keep <==>
      && NamePasses(byName, instance)
      && (byField.enable ==> memoAfter[instance.cls.typeId])
      && (!byValue.enable || ValueFound(byValue, instance))
    ensures thrown <==>
      && NamePasses(byName, instance)
      && (byField.enable ==> memoAfter[instance.cls.typeId])
      && byValue.enable && ValueThrows(byValue, instance)
  {
    memoAfter, scanned, keep, thrown := memo, false, false, false;
    if byName.enable && !byName.isMatch(instance.name) {
      return;
    }
    if byField.enable {
      var matched := false;
      if instance.cls.typeId in memoAfter {
        matched := memoAfter[instance.cls.typeId];
      } else {
        matched := MatchFieldName(byField, instance.cls);
        memoAfter := memoAfter[instance.cls.typeId := matched];
        scanned := true;
      }
      if !matched {
        return;
      }
    }
    if byValue.enable {
      var matched;
      matched, thrown := MatchFieldValue(byValue, instance);
      if !matched {
        return;
      }
    }
    keep := true;
  }

  /**
   * The loop over the instance list: keeps, in order, every instance that
   * passes the enabled checks, until an instance's value scan throws; then
   * `aborted`, and `found` holds what was kept before that instance. The
   * ghost `scans` counts the field-name scans: one per `typeId` in the
   * memo, none repeated.
   */
  method FilterInstances(s: seq<Instance>, byName: Matcher, byField: Matcher, byValue: Matcher)
    returns (found: seq<Instance>, aborted: bool, ghost scans: nat)
    requires WellFormed(s)
    ensures aborted <==> StopsAt(s, byName, byField, byValue, |s|) < |s|
    ensures found == Expected(s, byName, byField, byValue, StopsAt(s, byName, byField, byValue, |s|))
    ensures !aborted ==> scans == |MemoAfter(s, byName, byField, |s|)|
    ensures aborted ==> scans == |MemoAfter(s, byName, byField, StopsAt(s, byName, byField, byValue, |s|) + 1)|
  {
    found, aborted := [], false;
    scans := 0;
    var memo: map<uint32, bool> := map[];
    var n := 0;
    while n < |s|
      invariant 0 <= n <= |s|
      invariant found == Expected(s, byName, byField, byValue, n)
      invariant memo == MemoAfter(s, byName, byField, n)
      invariant scans == |memo|
      invariant forall k :: 0 <= k < n ==> !Aborts(s, byName, byField, byValue, k)
    {
      assert s[n].cls in Classes(s);
      var keep, thrown;
      ghost var scanned;
      keep, thrown, memo, scanned := CheckInstance(s[n], byName, byField, byValue, memo);
      if scanned {
        scans := scans + 1;
      }
      if thrown {
        assert Aborts(s, byName, byField, byValue, n);
        FirstAbortStops(s, byName, byField, byValue, n);
        return found, true, scans;
      }
      if keep {
        found := found + [s[n]];
      }
      n := n + 1;
    }
    FirstAbortStops(s, byName, byField, byValue, n);
  }

  class RszFileViewModel {
    /** The search results shown in the view; null until the first search. */
    var searchInstanceList: Option<seq<Instance>>

    constructor ()
      ensures searchInstanceList == None
    {
      searchInstanceList := None;
    }

    /**
     * Clears the result list (creating it if needed), then fills it with
     * the instances of the file's payload that pass every enabled check;
     * with no payload or no enabled matcher it stays empty. `thrown` when
     * a value scan reached a null value: the NullReferenceException
     * escapes, and the list keeps what was added before it.
     */
    method OnSearchInstances(rsz: Option<seq<Instance>>, byName: Matcher, byField: Matcher, byValue: Matcher)
      returns (thrown: bool)
      requires rsz.Some? ==> WellFormed(rsz.value)
      modifies this`searchInstanceList
      ensures searchInstanceList.Some?
      ensures rsz.None? || (!byName.enable && !byField.enable && !byValue.enable) ==>
        searchInstanceList.value == [] && !thrown
      ensures rsz.Some? && (byName.enable || byField.enable || byValue.enable) ==>
        var s := rsz.value;
        var stop := old(StopsAt(s, byName, byField, byValue, |s|));
        && (thrown <==> stop < |s|)
        && searchInstanceList.value == old(Expected(s, byName, byField, byValue, stop))
    {
      if rsz.None? || (!byName.enable && !byField.enable && !byValue.enable) {
        searchInstanceList := Some([]);
        return false;
      }
      // The descriptors the filter reads are allocated, so the call leaves them as they were.
      assert forall o :: o in Classes(rsz.value) ==> allocated(o);
      var found, aborted, _ := FilterInstances(rsz.value, byName, byField, byValue);
      searchInstanceList := Some(found);
      return aborted;
    }
  }
}
