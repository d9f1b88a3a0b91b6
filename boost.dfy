/** The speed-boost manager: a table of nine named jump-tuning records, a
 *  fixed-priority choice of one record from the controller buttons, and the
 *  per-frame step that copies the chosen record into the player. */
module BoostManager {
  import opened Wrappers
  import opened Config
  import opened Host
  import opened Widgets

  const DefaultMultiplier: real := 1.2
  const DefaultMaxSpeed: real := 8.0

  /** The nine record labels, in the order the table lists them. */
  const Labels: seq<string> := ["Left Primary", "Left Secondary", "Left Grab", "Left Joystick",
    "Right Primary", "Right Secondary", "Right Grab", "Right Joystick", "Defaults"]

  const LabelSet: set<string> := set l | l in Labels

  /** The config key each record is first bound under, label by label. */
  const CreationKeys: seq<string> := ["LeftPrimary", "LeftSecondary", "LeftGrab", "LeftJoystick",
    "RightPrimary", "RightSecondary", "RightGrab", "RightJoystick", "Defaults"]

  function MultiplierKey(name: string): Key
  {
    Key("Multipliers", name)
  }

  function MaxSpeedKey(name: string): Key
  {
    Key("MaxSpeeds", name)
  }

  // ---------------------------------------------------------------------
  // Config key naming

  /** `s.Replace(" ", "")`: the string with every space removed, the other
   *  characters kept in order. */
  function StripSpaces(s: string): (r: string)
    ensures ' ' !in r
    ensures ' ' !in s ==> r == s
  {
    if s == [] then []
    else if s[0] == ' ' then StripSpaces(s[1..])
    else [s[0]] + StripSpaces(s[1..])
  }

  /** Stripping keeps every character other than a space, as often as it
   *  occurs. */
  lemma {:induction false} StripSpacesKeepsOthers(s: string)
    ensures multiset(StripSpaces(s)) == multiset(s)[' ' := 0]
  {
    if s != [] {
      assert s == [s[0]] + s[1..];
      StripSpacesKeepsOthers(s[1..]);
    }
  }

  lemma {:induction false} StripSpacesConcat(a: string, b: string)
    ensures StripSpaces(a + b) == StripSpaces(a) + StripSpaces(b)
  {
    if a == [] {
      assert a + b == b;
    } else {
      assert (a + b)[0] == a[0] && (a + b)[1..] == a[1..] + b;
      StripSpacesConcat(a[1..], b);
    }
  }

  /** A two-word label "A B" is persisted under the key "AB". */
  lemma TwoWordKey(name: string, a: string, b: string, key: string)
    requires name == a + " " + b && key == a + b && ' ' !in a && ' ' !in b
    ensures StripSpaces(name) == key
  {
    StripSpacesConcat(a + " ", b);
    StripSpacesConcat(a, " ");
  }

  /** The key a label is saved and reloaded under is the key its record was
   *  created under. */
  lemma PersistedKeysAreCreationKeys()
    ensures forall i :: 0 <= i < |Labels| ==> StripSpaces(Labels[i]) == CreationKeys[i]
  {
    forall i | 0 <= i < |Labels|
      ensures StripSpaces(Labels[i]) == CreationKeys[i]
    {
      match i
      case 0 => LabelKey0();
      case 1 => LabelKey1();
      case 2 => LabelKey2();
      case 3 => LabelKey3();
      case 4 => LabelKey4();
      case 5 => LabelKey5();
      case 6 => LabelKey6();
      case 7 => LabelKey7();
      case 8 => LabelKey8();
    }
  }

  lemma LabelKey8()
    ensures StripSpaces(Labels[8]) == CreationKeys[8]
  {
    assert ' ' !in "Defaults";
  }

  lemma LabelKey0()
    ensures StripSpaces(Labels[0]) == CreationKeys[0]
  {
    TwoWordKey("Left Primary", "Left", "Primary", "LeftPrimary");
  }

  lemma LabelKey1()
    ensures StripSpaces(Labels[1]) == CreationKeys[1]
  {
    TwoWordKey("Left Secondary", "Left", "Secondary", "LeftSecondary");
  }

  lemma LabelKey2()
    ensures StripSpaces(Labels[2]) == CreationKeys[2]
  {
    TwoWordKey("Left Grab", "Left", "Grab", "LeftGrab");
  }

  lemma LabelKey3()
    ensures StripSpaces(Labels[3]) == CreationKeys[3]
  {
    TwoWordKey("Left Joystick", "Left", "Joystick", "LeftJoystick");
  }

  lemma LabelKey4()
    ensures StripSpaces(Labels[4]) == CreationKeys[4]
  {
    TwoWordKey("Right Primary", "Right", "Primary", "RightPrimary");
  }

  lemma LabelKey5()
    ensures StripSpaces(Labels[5]) == CreationKeys[5]
  {
    TwoWordKey("Right Secondary", "Right", "Secondary", "RightSecondary");
  }

  lemma LabelKey6()
    ensures StripSpaces(Labels[6]) == CreationKeys[6]
  {
    TwoWordKey("Right Grab", "Right", "Grab", "RightGrab");
  }

  lemma LabelKey7()
    ensures StripSpaces(Labels[7]) == CreationKeys[7]
  {
    TwoWordKey("Right Joystick", "Right", "Joystick", "RightJoystick");
  }

  lemma CreationKeysDistinct()
    ensures forall i, j :: 0 <= i < |CreationKeys| && 0 <= j < |CreationKeys| && i != j ==> CreationKeys[i] != CreationKeys[j]
  {
  }

  /** No two labels share a persisted key, so saving one record never
   *  overwrites another's entry. */
  lemma PersistedKeysDistinct()
    ensures forall a, b :: a in LabelSet && b in LabelSet && a != b ==> StripSpaces(a) != StripSpaces(b)
  {
    PersistedKeysAreCreationKeys();
    CreationKeysDistinct();
    forall a, b | a in LabelSet && b in LabelSet && a != b
      ensures StripSpaces(a) != StripSpaces(b)
    {
      var i :| 0 <= i < |Labels| && Labels[i] == a;
      var j :| 0 <= j < |Labels| && Labels[j] == b;
      assert StripSpaces(a) == CreationKeys[i] && StripSpaces(b) == CreationKeys[j];
    }
  }

  // ---------------------------------------------------------------------
  // The table, as values

  /** What one `BoostSettings` object holds. */
  datatype Entry = Entry(multiplier: real, maxSpeed: real, isActive: bool)

  /** The settings dictionary with each object replaced by what it holds. */
  type Table = map<string, Entry>

  /** The table holds exactly the nine labels. */
  predicate Complete(t: Table)
  {
    t.Keys == LabelSet
  }

  /** The labels whose records are marked active. */
  function ActiveLabels(t: Table): set<string>
  {
    set l | l in t && t[l].isActive
  }

  /** The record `LoadOrCreateSettings(name)` builds from the entries as they
   *  stand: the two bound values, not active. */
  function Created(reals: map<Key, real>, name: string): Entry
  {
    Entry(Lookup(reals, MultiplierKey(name), DefaultMultiplier),
          Lookup(reals, MaxSpeedKey(name), DefaultMaxSpeed),
          false)
  }

  /** The table `InitializeSettings` builds. */
  function InitialTable(reals: map<Key, real>): Table
  {
    map[
      "Left Primary" := Created(reals, "LeftPrimary"),
      "Left Secondary" := Created(reals, "LeftSecondary"),
      "Left Grab" := Created(reals, "LeftGrab"),
      "Left Joystick" := Created(reals, "LeftJoystick"),
      "Right Primary" := Created(reals, "RightPrimary"),
      "Right Secondary" := Created(reals, "RightSecondary"),
      "Right Grab" := Created(reals, "RightGrab"),
      "Right Joystick" := Created(reals, "RightJoystick"),
      "Defaults" := Created(reals, "Defaults")]
  }

  /** The default an entry of the two sections is bound with. */
  function DefaultFor(k: Key): real
  {
    if k.section == "Multipliers" then DefaultMultiplier else DefaultMaxSpeed
  }

  /** The two keys of every name in `names`. */
  function KeysOf(names: set<string>): set<Key>
  {
    (set n | n in names :: MultiplierKey(n)) + (set n | n in names :: MaxSpeedKey(n))
  }

  /** The entries once both keys of every name in `names` have been bound:
   *  the missing ones are created with their defaults. */
  function WithDefaults(reals: map<Key, real>, names: set<string>): (r: map<Key, real>)
    ensures r.Keys == reals.Keys + KeysOf(names)
    ensures forall k :: k in reals ==> r[k] == reals[k]
  {
    map k | k in reals.Keys + KeysOf(names) :: Lookup(reals, k, DefaultFor(k))
  }

  /** The keys of one more name. */
  lemma KeysOfSnoc(names: set<string>, name: string)
    ensures KeysOf(names + {name}) == KeysOf(names) + {MultiplierKey(name), MaxSpeedKey(name)}
  {
  }

  /** Entries that keep `r0` and add only defaults, on exactly the keys of
   *  `names`, are `WithDefaults(r0, names)`. */
  lemma DefaultsOnlyKeys(r: map<Key, real>, r0: map<Key, real>, names: set<string>)
    requires DefaultsOnly(r, r0) && r.Keys == r0.Keys + KeysOf(names)
    ensures r == WithDefaults(r0, names)
  {
  }

  /** Binding defaults for `a`, then for `b`, is binding them for both. */
  lemma WithDefaultsTwice(reals: map<Key, real>, a: set<string>, b: set<string>)
    ensures WithDefaults(WithDefaults(reals, a), b) == WithDefaults(reals, a + b)
  {
    var lhs := WithDefaults(WithDefaults(reals, a), b);
    var rhs := WithDefaults(reals, a + b);
    assert KeysOf(a + b) == KeysOf(a) + KeysOf(b);
    assert lhs.Keys == rhs.Keys;
    forall k | k in lhs ensures lhs[k] == rhs[k] {
    }
  }

  /** Creating defaults never changes what a binding of the same key yields. */
  lemma LookupWithDefaults(reals: map<Key, real>, names: set<string>, name: string)
    ensures Created(WithDefaults(reals, names), name) == Created(reals, name)
  {
  }

  /** The table built at start-up holds the nine labels, none of them
   *  active. */
  lemma InitialTableShape(reals: map<Key, real>)
    ensures Complete(InitialTable(reals))
    ensures ActiveLabels(InitialTable(reals)) == {}
  {
  }

  /** The `i`-th label's record is created under the `i`-th creation key. */
  lemma InitialTableAt(reals: map<Key, real>, i: nat)
    requires i < |Labels|
    ensures InitialTable(reals)[Labels[i]] == Created(reals, CreationKeys[i])
  {
    match i
    case 0 =>
    case 1 =>
    case 2 =>
    case 3 =>
    case 4 =>
    case 5 =>
    case 6 =>
    case 7 =>
    case 8 =>
  }

  /** Each record built at start-up holds the values stored under its label's
   *  persisted key, or 1.2 and 8.0 when there are none. */
  lemma InitialTableFromConfig(reals: map<Key, real>, l: string)
    requires l in LabelSet
    ensures InitialTable(reals)[l] == Created(reals, StripSpaces(l))
    ensures KeysOf({StripSpaces(l)}) !! reals.Keys ==>
              InitialTable(reals)[l] == Entry(DefaultMultiplier, DefaultMaxSpeed, false)
  {
    PersistedKeysAreCreationKeys();
    var i :| 0 <= i < |Labels| && Labels[i] == l;
    InitialTableAt(reals, i);
    var n := StripSpaces(l);
    assert MultiplierKey(n) in KeysOf({n}) && MaxSpeedKey(n) in KeysOf({n});
  }

  // ---------------------------------------------------------------------
  // Choosing the active record

  /** `GetActiveBoostSettings`: the label of the record the buttons select,
   *  tested in a fixed order, "Defaults" when no button is held. The
   *  selector is total and always names a record of the table. */
  function ActiveLabel(input: Input): (r: string)
    ensures r in LabelSet
  {
    if input.leftJoystickClick then "Left Joystick"
    else if input.rightJoystickClick then "Right Joystick"
    else if input.leftPrimary then "Left Primary"
    else if input.leftSecondary then "Left Secondary"
    else if input.leftGrab then "Left Grab"
    else if input.rightPrimary then "Right Primary"
    else if input.rightSecondary then "Right Secondary"
    else if input.rightGrab then "Right Grab"
    else "Defaults"
  }

  /** The eight buttons, highest priority first. */
  function PriorityFlags(input: Input): seq<bool>
  {
    [input.leftJoystickClick, input.rightJoystickClick, input.leftPrimary, input.leftSecondary,
     input.leftGrab, input.rightPrimary, input.rightSecondary, input.rightGrab]
  }

  /** The label each button of `PriorityFlags` selects. */
  const PriorityLabels: seq<string> := ["Left Joystick", "Right Joystick", "Left Primary",
    "Left Secondary", "Left Grab", "Right Primary", "Right Secondary", "Right Grab"]

  /** Reference rule: the label of the first set flag, else the fallback. */
  function FirstPressed(flags: seq<bool>, labels: seq<string>, fallback: string): string
    requires |flags| == |labels|
  {
    if flags == [] then fallback
    else if flags[0] then labels[0]
    else FirstPressed(flags[1..], labels[1..], fallback)
  }

  lemma {:induction false} FirstPressedIsFirst(flags: seq<bool>, labels: seq<string>, fallback: string, k: nat)
    requires |flags| == |labels| && k < |flags| && flags[k]
    requires forall j :: 0 <= j < k ==> !flags[j]
    ensures FirstPressed(flags, labels, fallback) == labels[k]
  {
    if k > 0 {
      assert !flags[0];
      FirstPressedIsFirst(flags[1..], labels[1..], fallback, k - 1);
    }
  }

  lemma {:induction false} NonePressed(flags: seq<bool>, labels: seq<string>, fallback: string)
    requires |flags| == |labels|
    requires forall j :: 0 <= j < |flags| ==> !flags[j]
    ensures FirstPressed(flags, labels, fallback) == fallback
  {
    if flags != [] {
      NonePressed(flags[1..], labels[1..], fallback);
    }
  }

  /** The selector is the first-pressed rule over the eight buttons in
   *  priority order, with "Defaults" as the fallback. */
  lemma ActiveLabelIsFirstPressed(input: Input)
    ensures ActiveLabel(input) == FirstPressed(PriorityFlags(input), PriorityLabels, "Defaults")
  {
    var flags := PriorityFlags(input);
    if input.leftJoystickClick {
      FirstPressedIsFirst(flags, PriorityLabels, "Defaults", 0);
    } else if input.rightJoystickClick {
      FirstPressedIsFirst(flags, PriorityLabels, "Defaults", 1);
    } else if input.leftPrimary {
      FirstPressedIsFirst(flags, PriorityLabels, "Defaults", 2);
    } else if input.leftSecondary {
      FirstPressedIsFirst(flags, PriorityLabels, "Defaults", 3);
    } else if input.leftGrab {
      FirstPressedIsFirst(flags, PriorityLabels, "Defaults", 4);
    } else if input.rightPrimary {
      FirstPressedIsFirst(flags, PriorityLabels, "Defaults", 5);
    } else if input.rightSecondary {
      FirstPressedIsFirst(flags, PriorityLabels, "Defaults", 6);
    } else if input.rightGrab {
      FirstPressedIsFirst(flags, PriorityLabels, "Defaults", 7);
    } else {
      NonePressed(flags, PriorityLabels, "Defaults");
    }
  }

  /** "Defaults" is chosen exactly when no button is held. */
  lemma DefaultsIffNothingPressed(input: Input)
    ensures ActiveLabel(input) == "Defaults" <==> forall j :: 0 <= j < 8 ==> !PriorityFlags(input)[j]
  {
    var flags := PriorityFlags(input);
    if j :| 0 <= j < 8 && flags[j] {
      var m :| 0 <= m <= j && flags[m] && forall i :: 0 <= i < m ==> !flags[i] by {
        FirstHeld(flags, j);
      }
      FirstHeldButtonWins(input, m);
      assert |PriorityLabels[m]| != |"Defaults"|;
    } else {
      ActiveLabelIsFirstPressed(input);
      NonePressed(flags, PriorityLabels, "Defaults");
    }
  }

  /** The first held button in priority order wins, whatever the buttons
   *  after it. */
  lemma FirstHeldButtonWins(input: Input, k: nat)
    requires k < 8 && PriorityFlags(input)[k]
    requires forall j :: 0 <= j < k ==> !PriorityFlags(input)[j]
    ensures ActiveLabel(input) == PriorityLabels[k]
  {
    ActiveLabelIsFirstPressed(input);
    FirstPressedIsFirst(PriorityFlags(input), PriorityLabels, "Defaults", k);
  }

  /** Two button states that agree up to and including a held button select
   *  the same record. */
  lemma LowerButtonsIgnored(a: Input, b: Input, k: nat)
    requires k < 8 && PriorityFlags(a)[k]
    requires PriorityFlags(a)[..k + 1] == PriorityFlags(b)[..k + 1]
    ensures ActiveLabel(a) == ActiveLabel(b)
  {
    var fa, fb := PriorityFlags(a), PriorityFlags(b);
    var m :| 0 <= m <= k && fa[m] && forall j :: 0 <= j < m ==> !fa[j] by {
      FirstHeld(fa, k);
    }
    assert forall j :: 0 <= j <= m ==> fb[j] == fa[..k + 1][j];
    FirstHeldButtonWins(a, m);
    FirstHeldButtonWins(b, m);
  }

  /** Below any set flag there is a first set flag. */
  lemma {:induction false} FirstHeld(flags: seq<bool>, k: nat)
    requires k < |flags| && flags[k]
    ensures exists m :: 0 <= m <= k && flags[m] && forall j :: 0 <= j < m ==> !flags[j]
  {
    if exists j :: 0 <= j < k && flags[j] {
      var j :| 0 <= j < k && flags[j];
      FirstHeld(flags, j);
    }
  }

  // ---------------------------------------------------------------------
  // ApplySettings and ResetToDefaults, as functions of the table

  /** The player after the chosen record is copied into its jump fields. */
  function Boosted(p: Player, e: Entry): Player
  {
    p.(maxJumpSpeed := e.maxSpeed, jumpMultiplier := e.multiplier)
  }

  /** Every record's active flag cleared, then `active`'s set. */
  function Activated(t: Table, active: string): Table
  {
    map l | l in t :: t[l].(isActive := l == active)
  }

  /** One `ApplySettings` call: the table and the player after it. Without a
   *  player nothing happens. */
  function ApplyStep(t: Table, player: Option<Player>, input: Input): (Table, Option<Player>)
    requires Complete(t)
  {
    match player
    case None => (t, None)
    case Some(p) =>
      var a := ActiveLabel(input);
      (Activated(t, a), Some(Boosted(p, t[a])))
  }

  /** With a player present, exactly one record ends up active, the selected
   *  one; the player's jump fields hold its values; no record's values
   *  change and no other player field does. */
  lemma ApplyMarksOnlySelected(t: Table, p: Player, input: Input)
    requires Complete(t)
    ensures var (t', p') := ApplyStep(t, Some(p), input);
      && Complete(t')
      && ActiveLabels(t') == {ActiveLabel(input)}
      && (forall l :: l in t ==> t'[l].multiplier == t[l].multiplier && t'[l].maxSpeed == t[l].maxSpeed)
      && p'.Some?
      && p'.value.maxJumpSpeed == t[ActiveLabel(input)].maxSpeed
      && p'.value.jumpMultiplier == t[ActiveLabel(input)].multiplier
      && p'.value.(maxJumpSpeed := p.maxJumpSpeed, jumpMultiplier := p.jumpMultiplier) == p
  {
    var (t', p') := ApplyStep(t, Some(p), input);
    assert ActiveLabels(t') == {ActiveLabel(input)};
  }

  /** Without a player, `ApplySettings` changes neither the table nor the player. */
  lemma ApplyWithoutPlayer(t: Table, input: Input)
    requires Complete(t)
    ensures ApplyStep(t, None, input) == (t, None)
  {
  }

  /** `ResetToDefaults`: every record back to 1.2 and 8.0, its active flag kept. */
  function Reset(t: Table): Table
  {
    map l | l in t :: Entry(DefaultMultiplier, DefaultMaxSpeed, t[l].isActive)
  }

  /** Reset keeps the labels and the active flags and restores the defaults;
   *  resetting twice is resetting once. */
  lemma ResetRestoresDefaults(t: Table)
    ensures Reset(t).Keys == t.Keys
    ensures ActiveLabels(Reset(t)) == ActiveLabels(t)
    ensures forall l :: l in t ==> Reset(t)[l].multiplier == DefaultMultiplier && Reset(t)[l].maxSpeed == DefaultMaxSpeed
    ensures Reset(Reset(t)) == Reset(t)
  {
  }

  // ---------------------------------------------------------------------
  // SaveSettings and LoadSettings, as functions of the table and the entries

  /** The persisted names of the labels in `ls`. */
  function PersistedNames(ls: seq<string>): set<string>
  {
    set l | l in ls :: StripSpaces(l)
  }

  /** The prefix of `s` one element longer than `s[..i]`. */
  lemma PrefixSnoc<T>(s: seq<T>, i: nat)
    requires i < |s|
    ensures s[..i + 1] == s[..i] + [s[i]]
  {
  }

  /** Extending the prefix `ls[..i]` by one label adds its persisted name. */
  lemma PersistedNamesSnoc(ls: seq<string>, i: nat)
    requires i < |ls|
    ensures PersistedNames(ls[..i + 1]) == PersistedNames(ls[..i]) + {StripSpaces(ls[i])}
  {
    assert ls[..i + 1] == ls[..i] + [ls[i]];
  }

  /** No two labels of `ls` share a persisted name. */
  predicate DistinctNames(ls: seq<string>)
  {
    forall i, j :: 0 <= i < j < |ls| ==> StripSpaces(ls[i]) != StripSpaces(ls[j])
  }

  lemma LabelsHaveDistinctNames()
    ensures DistinctNames(Labels)
  {
    PersistedKeysAreCreationKeys();
    CreationKeysDistinct();
  }

  /** The entries after record `l` of `t` is written under its persisted key. */
  function Written(reals: map<Key, real>, t: Table, l: string): map<Key, real>
    requires l in t
  {
    reals[MultiplierKey(StripSpaces(l)) := t[l].multiplier][MaxSpeedKey(StripSpaces(l)) := t[l].maxSpeed]
  }

  /** The entries after the records labelled `ls` are written, in order. */
  function SavedAll(reals: map<Key, real>, t: Table, ls: seq<string>): map<Key, real>
    requires forall l :: l in ls ==> l in t
  {
    if ls == [] then reals
    else Written(SavedAll(reals, t, ls[..|ls| - 1]), t, ls[|ls| - 1])
  }

  /** The entries after `SaveSettings`, which visits the table in the order
   *  its labels were inserted. */
  function Saved(reals: map<Key, real>, t: Table): map<Key, real>
    requires Complete(t)
  {
    SavedAll(reals, t, Labels)
  }

  lemma SavedAllSnoc(reals: map<Key, real>, t: Table, ls: seq<string>, l: string)
    requires forall l' :: l' in ls ==> l' in t
    requires l in t
    ensures SavedAll(reals, t, ls + [l]) == Written(SavedAll(reals, t, ls), t, l)
  {
    assert (ls + [l])[..|ls|] == ls;
  }

  /** After writing `ls`, each of its records sits under its persisted key. */
  lemma {:induction false} SavedAllAt(reals: map<Key, real>, t: Table, ls: seq<string>, l: string)
    requires forall l' :: l' in ls ==> l' in t
    requires DistinctNames(ls) && l in ls
    ensures MultiplierKey(StripSpaces(l)) in SavedAll(reals, t, ls)
    ensures SavedAll(reals, t, ls)[MultiplierKey(StripSpaces(l))] == t[l].multiplier
    ensures MaxSpeedKey(StripSpaces(l)) in SavedAll(reals, t, ls)
    ensures SavedAll(reals, t, ls)[MaxSpeedKey(StripSpaces(l))] == t[l].maxSpeed
  {
    var n := |ls| - 1;
    if l != ls[n] {
      var i :| 0 <= i < |ls| && ls[i] == l;
      assert i < n && StripSpaces(ls[i]) != StripSpaces(ls[n]);
      assert ls[..n][i] == l;
      SavedAllAt(reals, t, ls[..n], l);
    }
  }

  /** Writing values the entries already hold changes nothing. */
  lemma {:induction false} SavedAllUnchanged(reals: map<Key, real>, t: Table, ls: seq<string>)
    requires forall l :: l in ls ==> l in t
    requires forall l :: l in ls ==>
      && MultiplierKey(StripSpaces(l)) in reals && reals[MultiplierKey(StripSpaces(l))] == t[l].multiplier
      && MaxSpeedKey(StripSpaces(l)) in reals && reals[MaxSpeedKey(StripSpaces(l))] == t[l].maxSpeed
    ensures SavedAll(reals, t, ls) == reals
  {
    if ls != [] {
      var n := |ls| - 1;
      assert forall l :: l in ls[..n] ==> l in ls;
      SavedAllUnchanged(reals, t, ls[..n]);
    }
  }

  /** The table after `LoadSettings`: each record takes the values bound under
   *  its persisted key, or the defaults; active flags are kept. */
  function Loaded(t: Table, reals: map<Key, real>): Table
  {
    map l | l in t :: Created(reals, StripSpaces(l)).(isActive := t[l].isActive)
  }

  /** Saving then loading restores every record. */
  lemma SaveThenLoad(t: Table, reals: map<Key, real>)
    requires Complete(t)
    ensures Loaded(t, Saved(reals, t)) == t
  {
    LabelsHaveDistinctNames();
    var s := Saved(reals, t);
    forall l | l in t ensures Loaded(t, s)[l] == t[l] {
      SavedAllAt(reals, t, Labels, l);
    }
  }

  /** A record loaded from the entries is the record that would be created
   *  from them at start-up: saving and loading use the creation keys. */
  lemma LoadMatchesCreation(t: Table, reals: map<Key, real>)
    requires Complete(t) && ActiveLabels(t) == {}
    ensures Loaded(t, reals) == InitialTable(reals)
  {
    var lt := Loaded(t, reals);
    InitialTableShape(reals);
    forall l | l in lt ensures lt[l] == InitialTable(reals)[l] {
      InitialTableFromConfig(reals, l);
      assert !t[l].isActive by {
        assert l !in ActiveLabels(t);
      }
    }
  }

  /** Loading a second time changes neither the table nor the entries. */
  lemma LoadTwice(t: Table, reals: map<Key, real>)
    ensures var r := WithDefaults(reals, PersistedNames(Labels));
      && Loaded(Loaded(t, reals), r) == Loaded(t, reals)
      && WithDefaults(r, PersistedNames(Labels)) == r
  {
    var names := PersistedNames(Labels);
    var r := WithDefaults(reals, names);
    forall l | l in t ensures Created(r, StripSpaces(l)) == Created(reals, StripSpaces(l)) {
      LookupWithDefaults(reals, names, StripSpaces(l));
    }
    WithDefaultsTwice(reals, names, names);
    assert names + names == names;
  }

  /** Loading then saving writes back exactly the entries loading left. */
  lemma LoadThenSave(t: Table, reals: map<Key, real>)
    requires Complete(t)
    ensures Saved(WithDefaults(reals, PersistedNames(Labels)), Loaded(t, reals))
         == WithDefaults(reals, PersistedNames(Labels))
  {
    var w := WithDefaults(reals, PersistedNames(Labels));
    var lt := Loaded(t, reals);
    forall l | l in Labels
      ensures MultiplierKey(StripSpaces(l)) in w && w[MultiplierKey(StripSpaces(l))] == lt[l].multiplier
      ensures MaxSpeedKey(StripSpaces(l)) in w && w[MaxSpeedKey(StripSpaces(l))] == lt[l].maxSpeed
    {
      var n := StripSpaces(l);
      assert n in PersistedNames(Labels);
      assert MultiplierKey(n) in KeysOf(PersistedNames(Labels));
      assert MaxSpeedKey(n) in KeysOf(PersistedNames(Labels));
    }
    SavedAllUnchanged(w, lt, Labels);
  }

  // ---------------------------------------------------------------------
  // The quick preset buttons of one record

  datatype Preset = DefaultPreset | LowPreset | MediumPreset | HighPreset

  /** The (max speed, multiplier) pair each preset button writes. */
  function PresetValues(p: Preset): (real, real)
  {
    match p
    case DefaultPreset => (DefaultMaxSpeed, DefaultMultiplier)
    case LowPreset => (5.0, 0.8)
    case MediumPreset => (10.0, 1.5)
    case HighPreset => (15.0, 2.0)
  }

  /** What one record holds after a frame of its expanded panel: the max-speed
   *  slider (0 to 20), the multiplier slider (0 to 3), then at most one preset
   *  button, which wins over both sliders. */
  function Edited(e: Entry, maxSpeedDrag: Option<real>, multiplierDrag: Option<real>, preset: Option<Preset>): Entry
  {
    var slid := e.(maxSpeed := Slider(e.maxSpeed, maxSpeedDrag, 0.0, 20.0),
                   multiplier := Slider(e.multiplier, multiplierDrag, 0.0, 3.0));
    match preset
    case None => slid
    case Some(p) => slid.(maxSpeed := PresetValues(p).0, multiplier := PresetValues(p).1)
  }

  /** Each preset writes its fixed pair whatever the sliders did, and every
   *  preset lies on both sliders' tracks; the active flag is never touched. */
  lemma PresetsWin(e: Entry, maxSpeedDrag: Option<real>, multiplierDrag: Option<real>, p: Preset)
    ensures Edited(e, maxSpeedDrag, multiplierDrag, Some(p)) == Entry(PresetValues(p).1, PresetValues(p).0, e.isActive)
    ensures 0.0 <= PresetValues(p).0 <= 20.0 && 0.0 <= PresetValues(p).1 <= 3.0
  {
  }

  /** A record whose values lie on the slider tracks keeps them there. */
  lemma EditingStaysOnTrack(e: Entry, maxSpeedDrag: Option<real>, multiplierDrag: Option<real>, preset: Option<Preset>)
    requires 0.0 <= e.maxSpeed <= 20.0 && 0.0 <= e.multiplier <= 3.0
    ensures var e' := Edited(e, maxSpeedDrag, multiplierDrag, preset);
      0.0 <= e'.maxSpeed <= 20.0 && 0.0 <= e'.multiplier <= 3.0 && e'.isActive == e.isActive
  {
  }

  // ---------------------------------------------------------------------
  // The objects


  /** One record of the table; the GUI and the manager update it in place. */
  class BoostSettings {
    var multiplier: real
    var maxSpeed: real
    var isActive: bool
    /** The label the record is stored under; used only in proofs. */
    ghost const name: string

    constructor (ghost name: string, multiplier: real, maxSpeed: real)
      ensures this.name == name && View() == Entry(multiplier, maxSpeed, false)
    {
      this.name := name;
      this.multiplier := multiplier;
      this.maxSpeed := maxSpeed;
      this.isActive := false;
    }

    function View(): Entry
      reads this
    {
      Entry(multiplier, maxSpeed, isActive)
    }

    /** `DrawControlSetSliders` for this record during one frame. */
    method DrawControlSetSliders(maxSpeedDrag: Option<real>, multiplierDrag: Option<real>, preset: Option<Preset>)
      modifies this
      ensures View() == Edited(old(View()), maxSpeedDrag, multiplierDrag, preset)
    {
      maxSpeed := Slider(maxSpeed, maxSpeedDrag, 0.0, 20.0);
      multiplier := Slider(multiplier, multiplierDrag, 0.0, 3.0);
      if preset == Some(DefaultPreset) {
        maxSpeed := DefaultMaxSpeed;
        multiplier := DefaultMultiplier;
      }
      if preset == Some(LowPreset) {
        maxSpeed := 5.0;
        multiplier := 0.8;
      }
      if preset == Some(MediumPreset) {
        maxSpeed := 10.0;
        multiplier := 1.5;
      }
      if preset == Some(HighPreset) {
        maxSpeed := 15.0;
        multiplier := 2.0;
      }
    }
  }

  /** `r` holds every entry of `r0` unchanged, and any entry it adds holds the
   *  default of its section. */
  ghost predicate DefaultsOnly(r: map<Key, real>, r0: map<Key, real>)
  {
    && (forall k :: k in r0 ==> k in r && r[k] == r0[k])
    && (forall k :: k in r && k !in r0 ==> r[k] == DefaultFor(k))
  }

  /** Entries that only gained defaults build the same records. */
  lemma CreatedFromDefaults(r: map<Key, real>, r0: map<Key, real>, name: string)
    requires DefaultsOnly(r, r0)
    ensures Created(r, name) == Created(r0, name)
  {
  }

  /** `LoadOrCreateSettings`: bind both entries of `settingName` and build an
   *  inactive record from them. `r0` is the configuration before the first
   *  record was created. */
  method LoadOrCreateSettings(config: ConfigFile, ghost r0: map<Key, real>, ghost name: string, settingName: string)
    returns (s: BoostSettings)
    requires DefaultsOnly(config.reals, r0)
    modifies config
    ensures fresh(s) && s.name == name
    ensures s.View() == Created(old(config.reals), settingName) == Created(r0, settingName)
    ensures config.reals.Keys == old(config.reals).Keys + {MultiplierKey(settingName), MaxSpeedKey(settingName)}
    ensures DefaultsOnly(config.reals, old(config.reals)) && DefaultsOnly(config.reals, r0)
    ensures config.flags == old(config.flags)
  {
    var multiplier, maxSpeed := BindEntries(config, r0, settingName);
    s := new BoostSettings(name, multiplier, maxSpeed);
  }

  /** The two `Bind` calls for `settingName`: each entry is read, or created
   *  with its default when missing. */
  method BindEntries(config: ConfigFile, ghost r0: map<Key, real>, settingName: string)
    returns (multiplier: real, maxSpeed: real)
    requires DefaultsOnly(config.reals, r0)
    modifies config
    ensures Entry(multiplier, maxSpeed, false) == Created(old(config.reals), settingName) == Created(r0, settingName)
    ensures config.reals.Keys == old(config.reals).Keys + {MultiplierKey(settingName), MaxSpeedKey(settingName)}
    ensures DefaultsOnly(config.reals, old(config.reals)) && DefaultsOnly(config.reals, r0)
    ensures config.flags == old(config.flags)
  {
    multiplier := config.BindReal(MultiplierKey(settingName), DefaultMultiplier);
    maxSpeed := config.BindReal(MaxSpeedKey(settingName), DefaultMaxSpeed);
    CreatedFromDefaults(old(config.reals), r0, settingName);
  }

  /** The names `InitializeSettings` creates records for. */
  lemma CreationNames()
    ensures (set n | n in CreationKeys) == {"LeftPrimary", "LeftSecondary", "LeftGrab", "LeftJoystick",
      "RightPrimary", "RightSecondary", "RightGrab", "RightJoystick", "Defaults"}
  {
  }

  /** Binding nine names one after the other adds the two entries of each. */
  lemma KeysOfNine(k0: set<Key>, a: string, b: string, c: string, d: string, e: string,
                   f: string, g: string, h: string, i: string)
    ensures k0
            + {MultiplierKey(a), MaxSpeedKey(a)}
            + {MultiplierKey(b), MaxSpeedKey(b)}
            + {MultiplierKey(c), MaxSpeedKey(c)}
            + {MultiplierKey(d), MaxSpeedKey(d)}
            + {MultiplierKey(e), MaxSpeedKey(e)}
            + {MultiplierKey(f), MaxSpeedKey(f)}
            + {MultiplierKey(g), MaxSpeedKey(g)}
            + {MultiplierKey(h), MaxSpeedKey(h)}
            + {MultiplierKey(i), MaxSpeedKey(i)}
         == k0 + KeysOf({a, b, c, d, e, f, g, h, i})
  {
  }

  /** The entries the nine creations add, in their order, are the two entries
   *  of every creation key. */
  lemma CreationKeySet(k0: set<Key>)
    ensures k0
            + {MultiplierKey("LeftPrimary"), MaxSpeedKey("LeftPrimary")}
            + {MultiplierKey("LeftSecondary"), MaxSpeedKey("LeftSecondary")}
            + {MultiplierKey("LeftGrab"), MaxSpeedKey("LeftGrab")}
            + {MultiplierKey("LeftJoystick"), MaxSpeedKey("LeftJoystick")}
            + {MultiplierKey("RightPrimary"), MaxSpeedKey("RightPrimary")}
            + {MultiplierKey("RightSecondary"), MaxSpeedKey("RightSecondary")}
            + {MultiplierKey("RightGrab"), MaxSpeedKey("RightGrab")}
            + {MultiplierKey("RightJoystick"), MaxSpeedKey("RightJoystick")}
            + {MultiplierKey("Defaults"), MaxSpeedKey("Defaults")}
         == k0 + KeysOf(set n | n in CreationKeys)
  {
    CreationNames();
    KeysOfNine(k0, "LeftPrimary", "LeftSecondary", "LeftGrab", "LeftJoystick", "RightPrimary",
               "RightSecondary", "RightGrab", "RightJoystick", "Defaults");
  }

  /** The dictionary `InitializeSettings` builds holds one record per label,
   *  each stored under its own label. */
  lemma InitialRecordsShape(m: map<string, BoostSettings>,
                       a: BoostSettings, b: BoostSettings, c: BoostSettings, d: BoostSettings, e: BoostSettings,
                       f: BoostSettings, g: BoostSettings, h: BoostSettings, k: BoostSettings)
    requires m == map["Left Primary" := a, "Left Secondary" := b, "Left Grab" := c, "Left Joystick" := d,
                      "Right Primary" := e, "Right Secondary" := f, "Right Grab" := g, "Right Joystick" := h,
                      "Defaults" := k]
    requires a.name == "Left Primary" && b.name == "Left Secondary" && c.name == "Left Grab"
    requires d.name == "Left Joystick" && e.name == "Right Primary" && f.name == "Right Secondary"
    requires g.name == "Right Grab" && h.name == "Right Joystick" && k.name == "Defaults"
    ensures m.Keys == LabelSet && forall l :: l in m ==> m[l].name == l
  {
  }

  /** Each record of that dictionary holds what was created from its label's
   *  configuration entries. */
  lemma InitialRecordsTable(r0: map<Key, real>, m: map<string, BoostSettings>,
                       a: BoostSettings, b: BoostSettings, c: BoostSettings, d: BoostSettings, e: BoostSettings,
                       f: BoostSettings, g: BoostSettings, h: BoostSettings, k: BoostSettings)
    requires m == map["Left Primary" := a, "Left Secondary" := b, "Left Grab" := c, "Left Joystick" := d,
                      "Right Primary" := e, "Right Secondary" := f, "Right Grab" := g, "Right Joystick" := h,
                      "Defaults" := k]
    requires a.View() == Created(r0, "LeftPrimary") && b.View() == Created(r0, "LeftSecondary")
    requires c.View() == Created(r0, "LeftGrab") && d.View() == Created(r0, "LeftJoystick")
    requires e.View() == Created(r0, "RightPrimary") && f.View() == Created(r0, "RightSecondary")
    requires g.View() == Created(r0, "RightGrab") && h.View() == Created(r0, "RightJoystick")
    requires k.View() == Created(r0, "Defaults")
    ensures Views(m) == InitialTable(r0)
  {
    var t := Views(m);
    forall l | l in t
      ensures t[l] == InitialTable(r0)[l]
    {
      if l == "Left Primary" {
      } else if l == "Left Secondary" {
      } else if l == "Left Grab" {
      } else if l == "Left Joystick" {
      } else if l == "Right Primary" {
      } else if l == "Right Secondary" {
      } else if l == "Right Grab" {
      } else if l == "Right Joystick" {
      }
    }
  }

  /** The nine `LoadOrCreateSettings` calls of `InitializeSettings`'s
   *  dictionary initializer, evaluated in order. */
  method CreateRecords(config: ConfigFile) returns (leftPrimary: BoostSettings, leftSecondary: BoostSettings, leftGrab: BoostSettings, leftJoystick: BoostSettings, rightPrimary: BoostSettings, rightSecondary: BoostSettings, rightGrab: BoostSettings, rightJoystick: BoostSettings, defaults: BoostSettings)
    modifies config
    ensures fresh({leftPrimary, leftSecondary, leftGrab, leftJoystick, rightPrimary, rightSecondary, rightGrab, rightJoystick, defaults})
    ensures leftPrimary.name == "Left Primary" && leftPrimary.View() == Created(old(config.reals), "LeftPrimary")
    ensures leftSecondary.name == "Left Secondary" && leftSecondary.View() == Created(old(config.reals), "LeftSecondary")
    ensures leftGrab.name == "Left Grab" && leftGrab.View() == Created(old(config.reals), "LeftGrab")
    ensures leftJoystick.name == "Left Joystick" && leftJoystick.View() == Created(old(config.reals), "LeftJoystick")
    ensures rightPrimary.name == "Right Primary" && rightPrimary.View() == Created(old(config.reals), "RightPrimary")
    ensures rightSecondary.name == "Right Secondary" && rightSecondary.View() == Created(old(config.reals), "RightSecondary")
    ensures rightGrab.name == "Right Grab" && rightGrab.View() == Created(old(config.reals), "RightGrab")
    ensures rightJoystick.name == "Right Joystick" && rightJoystick.View() == Created(old(config.reals), "RightJoystick")
    ensures defaults.name == "Defaults" && defaults.View() == Created(old(config.reals), "Defaults")
    ensures config.reals.Keys == old(config.reals).Keys
            + {MultiplierKey("LeftPrimary"), MaxSpeedKey("LeftPrimary")}
            + {MultiplierKey("LeftSecondary"), MaxSpeedKey("LeftSecondary")}
            + {MultiplierKey("LeftGrab"), MaxSpeedKey("LeftGrab")}
            + {MultiplierKey("LeftJoystick"), MaxSpeedKey("LeftJoystick")}
            + {MultiplierKey("RightPrimary"), MaxSpeedKey("RightPrimary")}
            + {MultiplierKey("RightSecondary"), MaxSpeedKey("RightSecondary")}
            + {MultiplierKey("RightGrab"), MaxSpeedKey("RightGrab")}
            + {MultiplierKey("RightJoystick"), MaxSpeedKey("RightJoystick")}
            + {MultiplierKey("Defaults"), MaxSpeedKey("Defaults")}
    ensures DefaultsOnly(config.reals, old(config.reals))
    ensures config.flags == old(config.flags)
  {
    ghost var r0 := config.reals;
    leftPrimary := LoadOrCreateSettings(config, r0, "Left Primary", "LeftPrimary");
    leftSecondary := LoadOrCreateSettings(config, r0, "Left Secondary", "LeftSecondary");
    leftGrab := LoadOrCreateSettings(config, r0, "Left Grab", "LeftGrab");
    leftJoystick := LoadOrCreateSettings(config, r0, "Left Joystick", "LeftJoystick");
    rightPrimary := LoadOrCreateSettings(config, r0, "Right Primary", "RightPrimary");
    rightSecondary := LoadOrCreateSettings(config, r0, "Right Secondary", "RightSecondary");
    rightGrab := LoadOrCreateSettings(config, r0, "Right Grab", "RightGrab");
    rightJoystick := LoadOrCreateSettings(config, r0, "Right Joystick", "RightJoystick");
    defaults := LoadOrCreateSettings(config, r0, "Defaults", "Defaults");
  }

  /** `InitializeSettings`: one record per label, created in the dictionary's
   *  order from the label's configuration entries. */
  method InitializeSettings(config: ConfigFile) returns (settings: map<string, BoostSettings>)
    modifies config
    ensures settings.Keys == LabelSet && forall l :: l in settings ==> settings[l].name == l
    ensures Views(settings) == InitialTable(old(config.reals))
    ensures config.reals.Keys == old(config.reals).Keys + KeysOf(set n | n in CreationKeys)
    ensures DefaultsOnly(config.reals, old(config.reals))
    ensures config.flags == old(config.flags)
  {
    var leftPrimary, leftSecondary, leftGrab, leftJoystick, rightPrimary, rightSecondary, rightGrab, rightJoystick, defaults := CreateRecords(config);
    settings := map[
      "Left Primary" := leftPrimary,
      "Left Secondary" := leftSecondary,
      "Left Grab" := leftGrab,
      "Left Joystick" := leftJoystick,
      "Right Primary" := rightPrimary,
      "Right Secondary" := rightSecondary,
      "Right Grab" := rightGrab,
      "Right Joystick" := rightJoystick,
      "Defaults" := defaults];
    CreationKeySet(old(config.reals).Keys);
    InitialRecordsShape(settings, leftPrimary, leftSecondary, leftGrab, leftJoystick, rightPrimary, rightSecondary, rightGrab, rightJoystick, defaults);
    InitialRecordsTable(old(config.reals), settings, leftPrimary, leftSecondary, leftGrab, leftJoystick, rightPrimary, rightSecondary, rightGrab, rightJoystick, defaults);
  }

  /** What a dictionary of records holds. */
  function Views(m: map<string, BoostSettings>): Table
    reads m.Values
  {
    map l | l in m :: m[l].View()
  }

  class USBManager {
    var allSettings: map<string, BoostSettings>
    const config: ConfigFile

    ghost predicate Valid()
      reads this
    {
      && allSettings.Keys == LabelSet
      && forall l :: l in allSettings ==> allSettings[l].name == l
    }

    /** What the settings dictionary holds. */
    function Table(): Table
      reads this, allSettings.Values
    {
      Views(allSettings)
    }

    /** The constructor. */
    constructor (config: ConfigFile)
      modifies config
      ensures this.config == config && Valid()
      ensures Table() == InitialTable(old(config.reals))
      ensures config.reals.Keys == old(config.reals).Keys + KeysOf(set n | n in CreationKeys)
      ensures DefaultsOnly(config.reals, old(config.reals))
      ensures config.flags == old(config.flags)
    {
      var settings := InitializeSettings(config);
      this.config := config;
      allSettings := settings;
    }

    /** `SaveSettings`: every record written under its persisted key. */
    method SaveSettings()
      requires Valid()
      modifies config
      ensures config.reals == Saved(old(config.reals), Table()) && config.flags == old(config.flags)
    {
      ghost var t := Table();
      for i := 0 to |Labels|
        invariant config.reals == SavedAll(old(config.reals), t, Labels[..i])
        invariant config.flags == old(config.flags)
      {
        var l := Labels[i];
        var key := StripSpaces(l);
        config.SetReal(MultiplierKey(key), allSettings[l].multiplier);
        config.SetReal(MaxSpeedKey(key), allSettings[l].maxSpeed);
        SavedAllSnoc(old(config.reals), t, Labels[..i], l);
        PrefixSnoc(Labels, i);
      }
      assert Labels[..|Labels|] == Labels;
    }

    /** `LoadSettings`: every record re-read from its persisted key. */
    method LoadSettings()
      requires Valid()
      modifies allSettings.Values, config
      ensures Valid() && allSettings == old(allSettings)
      ensures Table() == Loaded(old(Table()), old(config.reals))
      ensures config.reals == WithDefaults(old(config.reals), PersistedNames(Labels))
      ensures config.flags == old(config.flags)
    {
      LoadLabels(Labels);
    }

    method LoadLabels(ls: seq<string>)
      requires Valid() && forall l :: l in ls ==> l in allSettings
      modifies allSettings.Values, config
      ensures Valid() && allSettings == old(allSettings)
      ensures forall l :: l in allSettings ==>
        && allSettings[l].multiplier == (if l in ls then Created(old(config.reals), StripSpaces(l)).multiplier
                                        else old(allSettings[l].multiplier))
        && allSettings[l].maxSpeed == (if l in ls then Created(old(config.reals), StripSpaces(l)).maxSpeed
                                      else old(allSettings[l].maxSpeed))
        && allSettings[l].isActive == old(allSettings[l].isActive)
      ensures config.reals == WithDefaults(old(config.reals), PersistedNames(ls))
      ensures config.flags == old(config.flags)
    {
      ghost var r0 := config.reals;
      for i := 0 to |ls|
        invariant DefaultsOnly(config.reals, r0)
        invariant config.reals.Keys == r0.Keys + KeysOf(PersistedNames(ls[..i]))
        invariant config.flags == old(config.flags)
        invariant forall l :: l in allSettings ==>
          allSettings[l].multiplier == (if l in ls[..i] then Created(r0, StripSpaces(l)).multiplier
                                        else old(allSettings[l].multiplier))
        invariant forall l :: l in allSettings ==>
          allSettings[l].maxSpeed == (if l in ls[..i] then Created(r0, StripSpaces(l)).maxSpeed
                                      else old(allSettings[l].maxSpeed))
        invariant forall l :: l in allSettings ==> allSettings[l].isActive == old(allSettings[l].isActive)
      {
        var l := ls[i];
        PrefixSnoc(ls, i);
        PersistedNamesSnoc(ls, i);
        KeysOfSnoc(PersistedNames(ls[..i]), StripSpaces(l));
        LoadRecord(l, r0);
      }
      assert ls[..|ls|] == ls;
      DefaultsOnlyKeys(config.reals, r0, PersistedNames(ls));
    }

    method LoadRecord(l: string, ghost r0: map<Key, real>)
      requires Valid() && l in allSettings && DefaultsOnly(config.reals, r0)
      modifies allSettings[l], config
      ensures DefaultsOnly(config.reals, r0)
      ensures config.reals.Keys == old(config.reals).Keys + {MultiplierKey(StripSpaces(l)), MaxSpeedKey(StripSpaces(l))}
      ensures config.flags == old(config.flags)
      ensures allSettings[l].multiplier == Created(r0, StripSpaces(l)).multiplier
      ensures allSettings[l].maxSpeed == Created(r0, StripSpaces(l)).maxSpeed
      ensures allSettings[l].isActive == old(allSettings[l].isActive)
      ensures forall l' :: l' in allSettings && l' != l ==>
        && allSettings[l'].multiplier == old(allSettings[l'].multiplier)
        && allSettings[l'].maxSpeed == old(allSettings[l'].maxSpeed)
        && allSettings[l'].isActive == old(allSettings[l'].isActive)
    {
      var multiplier, maxSpeed := BindEntries(config, r0, StripSpaces(l));
      allSettings[l].multiplier := multiplier;
      allSettings[l].maxSpeed := maxSpeed;
    }

    /** `GetActiveBoostSettings`: the record object the buttons select. */
    function GetActiveBoostSettings(input: Input): (r: BoostSettings)
      reads this
      requires Valid()
      ensures r in allSettings.Values && r.name == ActiveLabel(input)
    {
      allSettings[ActiveLabel(input)]
    }

    /** `ApplySettings`: copy the selected record into the player and mark it
     *  as the only active one; without a player, do nothing. */
    method ApplySettings(player: Option<Player>, input: Input) returns (player': Option<Player>)
      requires Valid()
      modifies allSettings.Values
      ensures Valid() && allSettings == old(allSettings)
      ensures (Table(), player') == ApplyStep(old(Table()), player, input)
    {
      if player.None? {
        return player;
      }
      var activeSettings := GetActiveBoostSettings(input);
      player' := Some(player.value.(maxJumpSpeed := activeSettings.maxSpeed,
                                    jumpMultiplier := activeSettings.multiplier));
      MarkOnlyActive(activeSettings, ActiveLabel(input));
    }

    /** The update-active-state loop of `ApplySettings`: clear every record's
     *  flag, then set the flag of `activeSettings`. */
    method MarkOnlyActive(activeSettings: BoostSettings, ghost a: string)
      requires Valid() && a in allSettings && activeSettings == allSettings[a]
      modifies allSettings.Values
      ensures Valid() && allSettings == old(allSettings)
      ensures Table() == Activated(old(Table()), a)
    {
      for i := 0 to |Labels|
        invariant forall l :: l in allSettings ==>
          && allSettings[l].multiplier == old(allSettings[l].multiplier)
          && allSettings[l].maxSpeed == old(allSettings[l].maxSpeed)
          && allSettings[l].isActive == (l !in Labels[..i] && old(allSettings[l].isActive))
      {
        allSettings[Labels[i]].isActive := false;
        PrefixSnoc(Labels, i);
      }
      activeSettings.isActive := true;
      assert Labels[..|Labels|] == Labels;
    }

    /** `ResetToDefaults`: every record back to 1.2 and 8.0. */
    method ResetToDefaults()
      requires Valid()
      modifies allSettings.Values
      ensures Valid() && allSettings == old(allSettings)
      ensures Table() == Reset(old(Table()))
    {
      ResetLabels(Labels);
    }

    /** The loop of `ResetToDefaults`, over the labels `ls`. */
    method ResetLabels(ls: seq<string>)
      requires Valid() && forall l :: l in ls ==> l in allSettings
      modifies allSettings.Values
      ensures Valid() && allSettings == old(allSettings)
      ensures forall l :: l in allSettings ==>
        && allSettings[l].multiplier == (if l in ls then DefaultMultiplier else old(allSettings[l].multiplier))
        && allSettings[l].maxSpeed == (if l in ls then DefaultMaxSpeed else old(allSettings[l].maxSpeed))
        && allSettings[l].isActive == old(allSettings[l].isActive)
    {
      for i := 0 to |ls|
        invariant forall l :: l in allSettings ==>
          && allSettings[l].multiplier == (if l in ls[..i] then DefaultMultiplier else old(allSettings[l].multiplier))
          && allSettings[l].maxSpeed == (if l in ls[..i] then DefaultMaxSpeed else old(allSettings[l].maxSpeed))
          && allSettings[l].isActive == old(allSettings[l].isActive)
      {
        allSettings[ls[i]].multiplier := DefaultMultiplier;
        allSettings[ls[i]].maxSpeed := DefaultMaxSpeed;
        PrefixSnoc(ls, i);
      }
      assert ls[..|ls|] == ls;
    }
  }
}
