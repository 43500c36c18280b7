/**
 * The component registry adapter: enables the components tagged with the
 * active app family, disables the other tagged ones, leaves untagged ones at
 * their default, and finds each family's main activity.
 */
module AppComponentModifier {
  import opened Wrappers
  import opened KotlinStdlib
  import opened ComponentRegistry

  /** The marker service whose setting tells whether components were ever modified. */
  const STATE_TRACKING_SERVICE: string := "com.snap.stuffing.lib.StateTrackingService"

  // ---------------------------------------------------------------------------
  // Listing the package's components
  // ---------------------------------------------------------------------------

  /** A `null` component array contributes nothing. */
  function OrEmpty(a: Option<seq<ComponentInfo>>): seq<ComponentInfo> {
    a.GetOr([])
  }

  /**
   * `listComponents()`: services, receivers, providers, then activities, in
   * that order; a failed package query throws instead of giving a partial list.
   */
  function ListComponents(p: Option<PackageInfo>): (r: Result<seq<ComponentInfo>, QueryError>)
    ensures p.None? <==> r.Failure?
    ensures r.Failure? ==> r.error == PackageNameNotFound
    ensures r.Success? ==>
      |r.value| == |OrEmpty(p.value.services)| + |OrEmpty(p.value.receivers)| +
                   |OrEmpty(p.value.providers)| + |OrEmpty(p.value.activities)|
    ensures r.Success? ==> forall c :: c in r.value <==>
      c in OrEmpty(p.value.services) || c in OrEmpty(p.value.receivers) ||
      c in OrEmpty(p.value.providers) || c in OrEmpty(p.value.activities)
  {
    match p
    case None => Failure(PackageNameNotFound)
    case Some(info) =>
      Success(OrEmpty(info.services) + OrEmpty(info.receivers) +
              OrEmpty(info.providers) + OrEmpty(info.activities))
  }

  /** `listActivities()`: the activities alone; here a `null` array throws. */
  function ListActivities(p: Option<PackageInfo>): (r: Result<seq<ComponentInfo>, QueryError>)
    ensures p.None? ==> r == Failure(PackageNameNotFound)
    ensures p.Some? && p.value.activities.None? ==> r == Failure(NullActivities)
    ensures p.Some? && p.value.activities.Some? ==> r == Success(p.value.activities.value)
  {
    match p
    case None => Failure(PackageNameNotFound)
    case Some(info) =>
      match info.activities
      case None => Failure(NullActivities)
      case Some(acts) => Success(acts)
  }

  // ---------------------------------------------------------------------------
  // Family tags and the state each component is given
  // ---------------------------------------------------------------------------

  /**
   * The family tags of a component: its `appFamilies` meta-data split on ',',
   * each piece trimmed and lower-cased. No meta-data gives no tags; any
   * meta-data string, even the empty one, gives at least one tag.
   */
  function ParseAppFamilies(appFamilies: Option<string>): (tags: seq<string>)
    ensures appFamilies.None? <==> tags == []
    ensures appFamilies.Some? ==> |tags| == |Split(appFamilies.value, ',')|
    ensures forall i :: 0 <= i < |tags| ==>
      ',' !in tags[i] && IsTrimmed(tags[i]) && IsLower(tags[i])
  {
    match appFamilies
    case None => []
    case Some(v) =>
      var pieces := Split(v, ',');
      seq(|pieces|, i requires 0 <= i < |pieces| => LowerTag(pieces[i]))
  }

  /** Tag `i` is piece `i` of the meta-data, trimmed and lower-cased. */
  lemma ParseAppFamiliesPieces(v: string)
    ensures |ParseAppFamilies(Some(v))| == |Split(v, ',')|
    ensures forall i :: 0 <= i < |Split(v, ',')| ==>
      ParseAppFamilies(Some(v))[i] == ToLower(Trim(Split(v, ',')[i]))
  {
    var pieces := Split(v, ',');
    var tags := ParseAppFamilies(Some(v));
    forall i | 0 <= i < |pieces|
      ensures tags[i] == ToLower(Trim(pieces[i]))
    {
      assert tags[i] == LowerTag(pieces[i]);
    }
  }

  /** A string is a tag exactly when some piece of the meta-data trims and lower-cases to it. */
  lemma ParseAppFamiliesMembers(v: string, t: string)
    ensures t in ParseAppFamilies(Some(v)) <==>
      exists i :: 0 <= i < |Split(v, ',')| && ToLower(Trim(Split(v, ',')[i])) == t
  {
    var pieces := Split(v, ',');
    var tags := ParseAppFamilies(Some(v));
    ParseAppFamiliesPieces(v);
    if t in tags {
      var i :| 0 <= i < |tags| && tags[i] == t;
      assert ToLower(Trim(pieces[i])) == t;
    }
    if exists i :: 0 <= i < |pieces| && ToLower(Trim(pieces[i])) == t {
      var i :| 0 <= i < |pieces| && ToLower(Trim(pieces[i])) == t;
      assert tags[i] == t;
    }
  }

  /** One trimmed, lower-cased tag. */
  function LowerTag(piece: string): (t: string)
    requires ',' !in piece
    ensures ',' !in t && IsTrimmed(t) && IsLower(t)
  {
    TrimKeepsAbsent(piece, ',');
    ToLowerKeeps(Trim(piece), ',');
    ToLower(Trim(piece))
  }

  /**
   * The state `switchToAppFamily` gives a component for `appFamily`: an
   * untagged component is left at its default, a tagged one is enabled or
   * disabled (`TargetStateCases` says which).
   */
  function TargetState(c: ComponentInfo, appFamily: string): (s: EnabledState)
    ensures s == Default <==> c.appFamilies.None?
    ensures s != DisabledUser && s != DisabledUntilUsed
  {
    var tags := ParseAppFamilies(c.appFamilies);
    if tags != [] then
      (if ToLower(appFamily) in tags then Enabled else Disabled)
    else Default
  }

  /** A tagged component is enabled exactly when the lower-cased family is one of its tags, and disabled otherwise. */
  lemma TargetStateCases(c: ComponentInfo, appFamily: string)
    ensures TargetState(c, appFamily) == Enabled <==>
      c.appFamilies.Some? && ToLower(appFamily) in ParseAppFamilies(c.appFamilies)
    ensures TargetState(c, appFamily) == Disabled <==>
      c.appFamilies.Some? && ToLower(appFamily) !in ParseAppFamilies(c.appFamilies)
  {
  }

  /** Families that differ only in ASCII case give every component the same state. */
  lemma {:induction false} TargetStateIgnoresCase(c: ComponentInfo, f: string, g: string)
    requires ToLower(f) == ToLower(g)
    ensures TargetState(c, f) == TargetState(c, g)
  {
  }

  /** The manifest example: a component tagged "A, B" is on for "b" and off for "C". */
  lemma TaggedExample()
    ensures TargetState(ComponentInfo("X", Some("A, B"), None), "b") == Enabled
    ensures TargetState(ComponentInfo("X", Some("A, B"), None), "C") == Disabled
  {
    ExampleTags();
    assert ToLower("b") == "b";
    assert ToLower("C") == "c";
  }

  /**
   * Meta-data holding the empty string gives the one tag "", so the component
   * counts as tagged and is disabled for every non-empty family.
   */
  lemma EmptyTagDisables(c: ComponentInfo, appFamily: string)
    requires c.appFamilies == Some("") && appFamily != ""
    ensures ParseAppFamilies(c.appFamilies) == [""]
    ensures TargetState(c, appFamily) == Disabled
  {
    var e: string := [];
    assert Split(e, ',') == [e];
    ParseOnePiece(e, e);
    assert TrimStart(e) == e && TrimEnd(e) == e && ToLower(e) == e;
    assert LowerTag(e) == e;
    var tags := ParseAppFamilies(c.appFamilies);
    assert tags == [e];
    assert ToLower(appFamily) != e by {
      assert |ToLower(appFamily)| == |appFamily| > 0;
    }
  }

  /** Meta-data that splits into one piece has that piece's tag alone. */
  lemma ParseOnePiece(v: string, p0: string)
    requires Split(v, ',') == [p0]
    ensures ',' !in p0
    ensures ParseAppFamilies(Some(v)) == [LowerTag(p0)]
  {
    var pieces := Split(v, ',');
    assert pieces[0] == p0;
    var tags := ParseAppFamilies(Some(v));
    assert |tags| == 1;
    assert tags[0] == LowerTag(p0);
  }

  /** The tags of "A, B". */
  lemma ExampleTags()
    ensures ParseAppFamilies(Some("A, B")) == ["a", "b"]
  {
    ExampleSplit();
    ParseTwoPieces("A, B", "A", " B");
    ExampleLowerTagA();
    ExampleLowerTagB();
  }

  /** Meta-data that splits into two pieces has those two pieces' tags. */
  lemma ParseTwoPieces(v: string, p0: string, p1: string)
    requires Split(v, ',') == [p0, p1]
    ensures ',' !in p0 && ',' !in p1
    ensures ParseAppFamilies(Some(v)) == [LowerTag(p0), LowerTag(p1)]
  {
    var pieces := Split(v, ',');
    assert pieces[0] == p0 && pieces[1] == p1;
    var tags := ParseAppFamilies(Some(v));
    assert |tags| == 2;
    assert tags[0] == LowerTag(p0);
    assert tags[1] == LowerTag(p1);
  }

  lemma ExampleSplit()
    ensures Split("A, B", ',') == ["A", " B"]
  {
    assert "A, B" == "A" + ([','] + " B");
    SplitPrefix("A", " B", ',');
    SplitNoDelimiter(" B", ',');
  }

  lemma ExampleLowerTagA()
    ensures LowerTag("A") == "a"
  {
    var a: string := ['A'];
    assert a == "A";
    assert !IsWhitespace(a[0]);
    assert TrimStart(a) == a;
    assert TrimEnd(a) == a;
    LowerSingle('A', 'a');
  }

  lemma ExampleLowerTagB()
    ensures LowerTag(" B") == "b"
  {
    var b: string := ['B'];
    var sb: string := [' ', 'B'];
    assert sb == " B" && sb[1..] == b;
    assert IsWhitespace(sb[0]) && !IsWhitespace(b[0]);
    assert TrimStart(b) == b;
    assert TrimStart(sb) == b;
    assert TrimEnd(b) == b;
    LowerSingle('B', 'b');
  }

  /** Lower-casing a one-letter string. */
  lemma LowerSingle(c: char, l: char)
    requires 'A' <= c <= 'Z' && l as int == c as int - 'A' as int + 'a' as int
    ensures ToLower([c]) == [l]
  {
    assert ToLower([c]) == [ToLowerChar(c)] + ToLower([]);
  }

  // ---------------------------------------------------------------------------
  // The effect of a pass over the components
  // ---------------------------------------------------------------------------

  /** The settings after a pass, and whether any single write changed a setting. */
  datatype Applied = Applied(settings: map<string, EnabledState>, changed: bool)

  /**
   * Applying `updates` in order, each one written only when the component's
   * current setting differs, and recorded as a change exactly then.
   */
  function Apply(settings: map<string, EnabledState>, updates: seq<(string, EnabledState)>): Applied
    decreases |updates|
  {
    if updates == [] then Applied(settings, false)
    else
      var before := Apply(settings, updates[..|updates| - 1]);
      var (name, value) := updates[|updates| - 1];
      if SettingOf(before.settings, name) != value
      then Applied(before.settings[name := value], true)
      else before
  }

  predicate DistinctKeys(updates: seq<(string, EnabledState)>) {
    forall i, j :: 0 <= i < j < |updates| ==> updates[i].0 != updates[j].0
  }

  function Keys(updates: seq<(string, EnabledState)>): set<string> {
    set i | 0 <= i < |updates| :: updates[i].0
  }

  /** A pass that changed nothing left the settings exactly as they were. */
  lemma {:induction false} ApplyUnchanged(s: map<string, EnabledState>, u: seq<(string, EnabledState)>)
    ensures !Apply(s, u).changed ==> Apply(s, u).settings == s
    decreases |u|
  {
    if u != [] {
      ApplyUnchanged(s, u[..|u| - 1]);
    }
  }

  /**
   * After a pass with one update per component, every updated component holds
   * its new value and every other component keeps its setting.
   */
  lemma {:induction false} ApplyFinal(s: map<string, EnabledState>, u: seq<(string, EnabledState)>)
    requires DistinctKeys(u)
    ensures forall i :: 0 <= i < |u| ==> SettingOf(Apply(s, u).settings, u[i].0) == u[i].1
    ensures forall n :: n !in Keys(u) ==> SettingOf(Apply(s, u).settings, n) == SettingOf(s, n)
    decreases |u|
  {
    if u != [] {
      var p := u[..|u| - 1];
      ApplyFinal(s, p);
      assert forall n :: n in Keys(p) ==> n in Keys(u) by {
        forall n | n in Keys(p) ensures n in Keys(u) {
          var i :| 0 <= i < |p| && p[i].0 == n;
          assert u[i].0 == n;
        }
      }
      forall i | 0 <= i < |u| - 1
        ensures SettingOf(Apply(s, u).settings, u[i].0) == u[i].1
      {
        assert p[i] == u[i];
      }
      assert u[|u| - 1].0 in Keys(u);
    }
  }

  /** With one update per component, a pass reports a change exactly when some setting differed. */
  lemma {:induction false} ApplyChangedIff(s: map<string, EnabledState>, u: seq<(string, EnabledState)>)
    requires DistinctKeys(u)
    ensures Apply(s, u).changed <==> exists i :: 0 <= i < |u| && SettingOf(s, u[i].0) != u[i].1
    decreases |u|
  {
    if u != [] {
      var p := u[..|u| - 1];
      var last := u[|u| - 1];
      ApplyChangedIff(s, p);
      ApplyFinal(s, p);
      assert last.0 !in Keys(p);
      if exists i :: 0 <= i < |p| && SettingOf(s, p[i].0) != p[i].1 {
        var i :| 0 <= i < |p| && SettingOf(s, p[i].0) != p[i].1;
        assert u[i] == p[i];
      }
      if exists i :: 0 <= i < |u| && SettingOf(s, u[i].0) != u[i].1 {
        var i :| 0 <= i < |u| && SettingOf(s, u[i].0) != u[i].1;
        if i < |p| {
          assert u[i] == p[i];
        }
      }
    }
  }

  /** A second pass with the same updates changes nothing and reports no change. */
  lemma ApplyIdempotent(s: map<string, EnabledState>, u: seq<(string, EnabledState)>)
    requires DistinctKeys(u)
    ensures Apply(Apply(s, u).settings, u) == Applied(Apply(s, u).settings, false)
  {
    var a := Apply(s, u).settings;
    ApplyFinal(s, u);
    ApplyChangedIff(a, u);
    ApplyUnchanged(a, u);
  }

  // ---------------------------------------------------------------------------
  // switchToAppFamily and resetAllComponents, as specifications
  // ---------------------------------------------------------------------------

  /** No two declared components share a name. */
  predicate DistinctNames(comps: seq<ComponentInfo>) {
    forall i, j :: 0 <= i < j < |comps| ==> comps[i].name != comps[j].name
  }

  function Names(comps: seq<ComponentInfo>): set<string> {
    set i | 0 <= i < |comps| :: comps[i].name
  }

  /** The writes `switchToAppFamily` asks for, one per component, in list order. */
  function SwitchTargets(comps: seq<ComponentInfo>, appFamily: string): (u: seq<(string, EnabledState)>)
    ensures |u| == |comps|
    ensures forall i :: 0 <= i < |u| ==> u[i] == (comps[i].name, TargetState(comps[i], appFamily))
  {
    seq(|comps|, i requires 0 <= i < |comps| => (comps[i].name, TargetState(comps[i], appFamily)))
  }

  /** The writes `resetAllComponents` asks for: every component back to its default. */
  function ResetTargets(comps: seq<ComponentInfo>): (u: seq<(string, EnabledState)>)
    ensures |u| == |comps|
    ensures forall i :: 0 <= i < |u| ==> u[i] == (comps[i].name, Default)
  {
    seq(|comps|, i requires 0 <= i < |comps| => (comps[i].name, Default))
  }

  /**
   * What `switchToAppFamily(appFamily)` does to `settings`: the package query
   * fails, or the pass over the listed components gives new settings and a
   * change flag.
   */
  function SwitchSpec(settings: map<string, EnabledState>, p: Option<PackageInfo>, appFamily: string): (r: Result<Applied, QueryError>)
    ensures r.Failure? <==> p.None?
  {
    match ListComponents(p)
    case Failure(e) => Failure(e)
    case Success(comps) => Success(Apply(settings, SwitchTargets(comps, appFamily)))
  }

  /** What `resetAllComponents()` does to `settings`. */
  function ResetSpec(settings: map<string, EnabledState>, p: Option<PackageInfo>): (r: Result<Applied, QueryError>)
    ensures r.Failure? <==> p.None?
  {
    match ListComponents(p)
    case Failure(e) => Failure(e)
    case Success(comps) => Success(Apply(settings, ResetTargets(comps)))
  }

  lemma TargetsKeys(comps: seq<ComponentInfo>, u: seq<(string, EnabledState)>)
    requires |u| == |comps|
    requires forall i :: 0 <= i < |u| ==> u[i].0 == comps[i].name
    ensures DistinctNames(comps) ==> DistinctKeys(u)
    ensures Keys(u) == Names(comps)
  {
    assert forall n :: n in Keys(u) ==> n in Names(comps) by {
      forall n | n in Keys(u) ensures n in Names(comps) {
        var i :| 0 <= i < |u| && u[i].0 == n;
        assert comps[i].name == n;
      }
    }
    assert forall n :: n in Names(comps) ==> n in Keys(u) by {
      forall n | n in Names(comps) ensures n in Keys(u) {
        var i :| 0 <= i < |comps| && comps[i].name == n;
        assert u[i].0 == n;
      }
    }
  }

  /**
   * After `switchToAppFamily`, every listed component holds the state its tags
   * give it, every unlisted one keeps its setting, and the call reports a
   * change exactly when some listed component was in another state.
   */
  lemma SwitchSettles(s: map<string, EnabledState>, comps: seq<ComponentInfo>, appFamily: string)
    requires DistinctNames(comps)
    ensures var a := Apply(s, SwitchTargets(comps, appFamily));
      && (forall i :: 0 <= i < |comps| ==>
            SettingOf(a.settings, comps[i].name) == TargetState(comps[i], appFamily))
      && (forall n :: n !in Names(comps) ==> SettingOf(a.settings, n) == SettingOf(s, n))
      && (a.changed <==>
            exists i :: 0 <= i < |comps| && SettingOf(s, comps[i].name) != TargetState(comps[i], appFamily))
  {
    var u := SwitchTargets(comps, appFamily);
    var a := Apply(s, u);
    TargetsKeys(comps, u);
    ApplyFinal(s, u);
    ApplyChangedIff(s, u);
    forall i | 0 <= i < |comps|
      ensures SettingOf(a.settings, comps[i].name) == TargetState(comps[i], appFamily)
    {
      assert u[i] == (comps[i].name, TargetState(comps[i], appFamily));
    }
    if a.changed {
      var i :| 0 <= i < |u| && SettingOf(s, u[i].0) != u[i].1;
      assert u[i] == (comps[i].name, TargetState(comps[i], appFamily));
    } else {
      forall i | 0 <= i < |comps|
        ensures SettingOf(s, comps[i].name) == TargetState(comps[i], appFamily)
      {
        assert u[i] == (comps[i].name, TargetState(comps[i], appFamily));
      }
    }
  }

  /** A second identical `switchToAppFamily` with nothing changed in between reports false and writes nothing. */
  lemma SwitchIdempotent(s: map<string, EnabledState>, comps: seq<ComponentInfo>, appFamily: string)
    requires DistinctNames(comps)
    ensures var a := Apply(s, SwitchTargets(comps, appFamily));
      Apply(a.settings, SwitchTargets(comps, appFamily)) == Applied(a.settings, false)
  {
    TargetsKeys(comps, SwitchTargets(comps, appFamily));
    ApplyIdempotent(s, SwitchTargets(comps, appFamily));
  }

  /**
   * After `resetAllComponents`, every listed component is at its default, the
   * others are untouched, and the call reports a change exactly when some
   * listed component was not at its default.
   */
  lemma ResetSettles(s: map<string, EnabledState>, comps: seq<ComponentInfo>)
    requires DistinctNames(comps)
    ensures var a := Apply(s, ResetTargets(comps));
      && (forall i :: 0 <= i < |comps| ==> SettingOf(a.settings, comps[i].name) == Default)
      && (forall n :: n !in Names(comps) ==> SettingOf(a.settings, n) == SettingOf(s, n))
      && (a.changed <==> exists i :: 0 <= i < |comps| && SettingOf(s, comps[i].name) != Default)
  {
    var u := ResetTargets(comps);
    var a := Apply(s, u);
    TargetsKeys(comps, u);
    ApplyFinal(s, u);
    ApplyChangedIff(s, u);
    forall i | 0 <= i < |comps|
      ensures SettingOf(a.settings, comps[i].name) == Default
    {
      assert u[i] == (comps[i].name, Default);
    }
    if a.changed {
      var i :| 0 <= i < |u| && SettingOf(s, u[i].0) != u[i].1;
      assert u[i] == (comps[i].name, Default);
    } else {
      forall i | 0 <= i < |comps|
        ensures SettingOf(s, comps[i].name) == Default
      {
        assert u[i] == (comps[i].name, Default);
      }
    }
  }

  // ---------------------------------------------------------------------------
  // The "ever modified" marker
  // ---------------------------------------------------------------------------

  /** `checkComponentListModifiedState()` on a given set of settings. */
  predicate ComponentListModified(settings: map<string, EnabledState>) {
    SettingOf(settings, STATE_TRACKING_SERVICE) != Default
  }

  /**
   * The marker service is declared under a family no switch targets, so the
   * first switch to any real family disables it and the registry reads as
   * modified from then on.
   */
  lemma SwitchMarksModified(s: map<string, EnabledState>, comps: seq<ComponentInfo>, appFamily: string, k: nat)
    requires DistinctNames(comps)
    requires k < |comps| && comps[k].name == STATE_TRACKING_SERVICE
    requires comps[k].appFamilies.Some?
    requires ToLower(appFamily) !in ParseAppFamilies(comps[k].appFamilies)
    ensures ComponentListModified(Apply(s, SwitchTargets(comps, appFamily)).settings)
  {
    SwitchSettles(s, comps, appFamily);
  }

  /** Resetting every component puts the marker back to its default: the registry reads as never modified. */
  lemma ResetClearsModified(s: map<string, EnabledState>, comps: seq<ComponentInfo>, k: nat)
    requires DistinctNames(comps)
    requires k < |comps| && comps[k].name == STATE_TRACKING_SERVICE
    ensures !ComponentListModified(Apply(s, ResetTargets(comps)).settings)
  {
    ResetSettles(s, comps);
  }

  // ---------------------------------------------------------------------------
  // The main activity of a family
  // ---------------------------------------------------------------------------

  /** The whole `mainForAppFamilies` value, not split, equals the family up to ASCII case. */
  predicate IsMainFor(c: ComponentInfo, appFamily: string) {
    c.mainForAppFamilies.Some? && ToLower(c.mainForAppFamilies.value) == ToLower(appFamily)
  }

  /** `findLast`: the index of the last activity that is main for `appFamily`. */
  function LastMainIndex(acts: seq<ComponentInfo>, appFamily: string): (r: Option<nat>)
    ensures r.Some? ==> r.value < |acts| && IsMainFor(acts[r.value], appFamily)
    ensures r.Some? ==> forall j :: r.value < j < |acts| ==> !IsMainFor(acts[j], appFamily)
    ensures r.None? ==> forall j :: 0 <= j < |acts| ==> !IsMainFor(acts[j], appFamily)
    decreases |acts|
  {
    if acts == [] then None
    else if IsMainFor(acts[|acts| - 1], appFamily) then Some(|acts| - 1)
    else LastMainIndex(acts[..|acts| - 1], appFamily)
  }

  /** `getMainActivityForAppFamily`: the last declared main activity of the family, if any. */
  function GetMainActivityForAppFamily(p: Option<PackageInfo>, appFamily: string): (r: Result<Option<ComponentInfo>, QueryError>)
    ensures r.Failure? <==> ListActivities(p).Failure?
    ensures r.Success? ==> var acts := ListActivities(p).value;
      match r.value
      case None => forall j :: 0 <= j < |acts| ==> !IsMainFor(acts[j], appFamily)
      case Some(c) => exists i :: 0 <= i < |acts| && acts[i] == c && IsMainFor(c, appFamily) &&
                        forall j :: i < j < |acts| ==> !IsMainFor(acts[j], appFamily)
  {
    match ListActivities(p)
    case Failure(e) => Failure(e)
    case Success(acts) =>
      match LastMainIndex(acts, appFamily)
      case None => Success(None)
      case Some(i) => Success(Some(acts[i]))
  }

  /** `getDefaultActivityClassNameForAppFamily`: the class name of the family's main activity. */
  function GetDefaultActivityClassNameForAppFamily(p: Option<PackageInfo>, appFamily: string): (r: Result<Option<string>, QueryError>)
    ensures r.Failure? <==> GetMainActivityForAppFamily(p, appFamily).Failure?
    ensures r.Success? ==> (r.value.None? <==> GetMainActivityForAppFamily(p, appFamily).value.None?)
    ensures r.Success? && r.value.Some? ==> r.value.value == GetMainActivityForAppFamily(p, appFamily).value.value.name
  {
    match GetMainActivityForAppFamily(p, appFamily)
    case Failure(e) => Failure(e)
    case Success(None) => Success(None)
    case Success(Some(c)) => Success(Some(c.name))
  }

  /** A bundle of launch extras, carried along unchanged. */
  datatype Bundle = Bundle(entries: map<string, string>)

  /**
   * A main-activity launch intent for `component`, with the new-task and
   * clear-task flags; `extras` are the extras merged into it.
   */
  datatype Intent = Intent(component: string, extras: Option<Bundle>)

  /** `getLaunchIntentForAppFamily`: a launch intent for the family's main activity, if it has one. */
  function GetLaunchIntentForAppFamily(p: Option<PackageInfo>, appFamily: string): (r: Result<Option<Intent>, QueryError>)
    ensures r.Failure? <==> GetMainActivityForAppFamily(p, appFamily).Failure?
    ensures r.Success? ==> match GetMainActivityForAppFamily(p, appFamily).value
      case None => r.value.None?
      case Some(c) => r.value == Some(Intent(c.name, None))
  {
    match GetMainActivityForAppFamily(p, appFamily)
    case Failure(e) => Failure(e)
    case Success(None) => Success(None)
    case Success(Some(c)) => Success(Some(Intent(c.name, None)))
  }

  // ---------------------------------------------------------------------------
  // The passes themselves, over the package manager
  // ---------------------------------------------------------------------------

  /** `checkComponentListModifiedState()`: whether the marker service is not at its default. */
  method CheckComponentListModifiedState(pm: PackageManager) returns (modified: bool)
    ensures modified <==> pm.GetComponentEnabledSetting(STATE_TRACKING_SERVICE) != Default
    ensures modified == ComponentListModified(pm.settings)
  {
    modified := pm.GetComponentEnabledSetting(STATE_TRACKING_SERVICE) != Default;
  }

  /** `ComponentInfo.setComponentEnabledSetting(value)`: writes only when the setting differs. */
  method SetComponentEnabledSetting(pm: PackageManager, name: string, value: EnabledState) returns (changed: bool)
    modifies pm
    ensures changed <==> old(pm.GetComponentEnabledSetting(name)) != value
    ensures pm.settings == if changed then old(pm.settings)[name := value] else old(pm.settings)
    ensures pm.GetComponentEnabledSetting(name) == value
  {
    var previousValue := pm.GetComponentEnabledSetting(name);
    if previousValue != value {
      pm.SetComponentEnabledSetting(name, value);
      return true;
    }
    return false;
  }

  /**
   * `switchToAppFamily(appFamily)`: one pass over the listed components, each
   * set to the state its tags give it; the result says whether any write
   * changed a setting.
   */
  method SwitchToAppFamily(pm: PackageManager, appFamily: string) returns (r: Result<bool, QueryError>)
    modifies pm
    ensures match SwitchSpec(old(pm.settings), pm.packageInfo, appFamily)
      case Failure(e) => r == Failure(e) && pm.settings == old(pm.settings)
      case Success(a) => r == Success(a.changed) && pm.settings == a.settings
  {
    var listed := ListComponents(pm.packageInfo);
    if listed.Failure? {
      return Failure(listed.error);
    }
    var comps := listed.value;
    ghost var u := SwitchTargets(comps, appFamily);
    var componentsChanged := false;
    for i := 0 to |comps|
      invariant Apply(old(pm.settings), u[..i]) == Applied(pm.settings, componentsChanged)
    {
      var appFamilies := ParseAppFamilies(comps[i].appFamilies);
      assert u[i] == (comps[i].name, TargetState(comps[i], appFamily));
      var changed;
      if appFamilies != [] {
        if ToLower(appFamily) in appFamilies {
          changed := SetComponentEnabledSetting(pm, comps[i].name, Enabled);
        } else {
          changed := SetComponentEnabledSetting(pm, comps[i].name, Disabled);
        }
      } else {
        changed := SetComponentEnabledSetting(pm, comps[i].name, Default);
      }
      if changed {
        componentsChanged := true;
      }
      assert u[..i + 1][..i] == u[..i];
    }
    assert u[..|comps|] == u;
    return Success(componentsChanged);
  }

  /** `resetAllComponents()`: one pass putting every listed component back to its default. */
  method ResetAllComponents(pm: PackageManager) returns (r: Result<bool, QueryError>)
    modifies pm
    ensures match ResetSpec(old(pm.settings), pm.packageInfo)
      case Failure(e) => r == Failure(e) && pm.settings == old(pm.settings)
      case Success(a) => r == Success(a.changed) && pm.settings == a.settings
  {
    var listed := ListComponents(pm.packageInfo);
    if listed.Failure? {
      return Failure(listed.error);
    }
    var comps := listed.value;
    ghost var u := ResetTargets(comps);
    var componentsChanged := false;
    for i := 0 to |comps|
      invariant Apply(old(pm.settings), u[..i]) == Applied(pm.settings, componentsChanged)
    {
      var changed := SetComponentEnabledSetting(pm, comps[i].name, Default);
      if changed {
        componentsChanged := true;
      }
      assert u[..i + 1][..i] == u[..i];
    }
    assert u[..|comps|] == u;
    return Success(componentsChanged);
  }
}
