/**
 * The non-visual logic of components/Canvas.tsx: which view a phase id
 * gets, the fields and labels of the generic document view, the status
 * label, and the storyboard's scene numbers and screen-type default.
 */
module Canvas {
  import opened Wrappers
  import opened Types
  import opened Js
  import Constants

  /** The visualisations of the artifact canvas. */
  datatype ArtifactView =
    | CharterView | GapView | ActionMapView | ContentView
    | ObjectivesView | DesignDocView | StoryboardView | EvaluationView
    | DocumentView

  /** The ids with a dedicated visualisation. */
  const DEDICATED_VIEW_IDS: set<int> := {1, 2, 3, 4, 5, 6, 8, 12}

  /** The chain of `if (phase.id === k)` branches, with the document view as the fall-through. */
  function ViewFor(id: int): (r: ArtifactView)
    ensures r == DocumentView <==> id !in DEDICATED_VIEW_IDS
  {
    if id == 1 then CharterView
    else if id == 2 then GapView
    else if id == 3 then ActionMapView
    else if id == 4 then ContentView
    else if id == 5 then ObjectivesView
    else if id == 6 then DesignDocView
    else if id == 8 then StoryboardView
    else if id == 12 then EvaluationView
    else DocumentView
  }

  // --- The generic document view ---

  /** An action row as the object `Object.entries` sees: its four properties hold the row's texts. */
  function ActionToJs(a: ActionMapItem): (r: JsValue)
    ensures r.JsObject? && |r.fields| == 4
    ensures Lookup(r.fields, "id") == Some(JsString(a.id)) && Lookup(r.fields, "behavior") == Some(JsString(a.behavior))
    ensures Lookup(r.fields, "activity") == Some(JsString(a.activity)) && Lookup(r.fields, "info") == Some(JsString(a.info))
  {
    var f0, f1, f2, f3 := Field("id", JsString(a.id)), Field("behavior", JsString(a.behavior)),
                          Field("activity", JsString(a.activity)), Field("info", JsString(a.info));
    assert "behavior"[0] != "activity"[0];
    assert [f3] + [] == [f3];
    LookupCons(f0, [f1] + ([f2] + [f3]));
    LookupCons(f1, [f2] + [f3]);
    LookupCons(f2, [f3]);
    LookupCons(f3, []);
    JsObject([f0] + ([f1] + ([f2] + [f3])))
  }

  function ActionsToJs(s: seq<ActionMapItem>): (r: seq<JsValue>)
    ensures |r| == |s|
  {
    if s == [] then [] else [ActionToJs(s[0])] + ActionsToJs(s[1..])
  }

  /** `Object.entries(phase.data)`: own properties in the order the record literals create them. */
  function Entries(d: AnyPhaseData): (r: seq<Field>)
    ensures d.Bag? ==> r == d.fields
    ensures !d.Bag? ==> forall i :: 0 <= i < |r| ==> r[i].value.JsString? || r[i].key in SKIPPED_KEYS
    ensures d.ActionMap? ==> Lookup(r, "actions") == Some(JsArray(ActionsToJs(d.p3.actions)))
  {
    match d
    case Kickoff(p) =>
      [Field("projectName", JsString(p.projectName)), Field("stakeholders", JsString(p.stakeholders)),
       Field("businessGoal", JsString(p.businessGoal)), Field("targetAudience", JsString(p.targetAudience)),
       Field("constraints", JsString(p.constraints))]
    case NeedsAnalysis(p) =>
      [Field("currentPerformance", JsString(p.currentPerformance)), Field("desiredPerformance", JsString(p.desiredPerformance)),
       Field("gapAnalysis", JsString(p.gapAnalysis)), Field("rootCause", JsString(p.rootCause)),
       Field("evidence", JsString(p.evidence))]
    case ActionMap(p) =>
      [Field("measurableGoal", JsString(p.measurableGoal)), Field("actions", JsArray(ActionsToJs(p.actions)))]
    case SmeContent(p) =>
      [Field("smeQuestions", JsString(p.smeQuestions)), Field("rawContent", JsString(p.rawContent)),
       Field("curatedContent", JsString(p.curatedContent)), Field("cognitiveLoadCheck", JsString(p.cognitiveLoadCheck))]
    case Bag(fs) => fs
  }

  /** The list-valued keys the document view leaves to the dedicated views. */
  const SKIPPED_KEYS: set<string> := {"actions", "screens", "objectives"}

  /** Whether the document view renders an entry: a truthy value under a key it does not skip. */
  predicate IsShown(f: Field)
    ensures f.value.JsString? ==> (IsShown(f) <==> f.key !in SKIPPED_KEYS && f.value.s != [])
    ensures f.value.JsUndefined? || f.value.JsNull? ==> !IsShown(f)
    ensures f.key in SKIPPED_KEYS ==> !IsShown(f)
  {
    f.key !in SKIPPED_KEYS && Truthy(f.value)
  }

  /** The entries the document view renders, in their original order. */
  function ShownFields(es: seq<Field>): (r: seq<Field>)
    ensures |r| <= |es|
    ensures forall f :: f in r <==> f in es && IsShown(f)
  {
    if es == [] then []
    else if IsShown(es[0]) then [es[0]] + ShownFields(es[1..])
    else ShownFields(es[1..])
  }

  lemma {:induction false} NoneShown(es: seq<Field>)
    requires forall i :: 0 <= i < |es| ==> !IsShown(es[i])
    ensures ShownFields(es) == []
  {
    if es != [] { NoneShown(es[1..]); }
  }

  /** Filtering keeps the rendered entries in order: it distributes over concatenation. */
  lemma {:induction false} ShownFieldsAppend(a: seq<Field>, b: seq<Field>)
    ensures ShownFields(a + b) == ShownFields(a) + ShownFields(b)
  {
    if a == [] {
      assert a + b == b;
    } else {
      assert (a + b)[1..] == a[1..] + b;
      ShownFieldsAppend(a[1..], b);
    }
  }

  /** Every upper-case letter of `s` after the first position comes right after a space. */
  predicate CapitalsAfterSpace(s: string) {
    forall i, j {:trigger s[i], s[j]} :: 0 <= i < |s| && 0 <= j < |s| && j == i + 1 && IsUpper(s[j]) ==> s[i] == ' '
  }

  /** `key.replace(/([A-Z])/g, ' $1')`: a space before every upper-case letter. */
  function SpaceBeforeUpper(s: string): (r: string)
    ensures |s| <= |r|
  {
    if s == [] then []
    else (if IsUpper(s[0]) then [' ', s[0]] else [s[0]]) + SpaceBeforeUpper(s[1..])
  }

  /** After the transform no upper-case letter opens the text or follows anything but a space. */
  lemma {:induction false} SpaceBeforeUpperSpaced(s: string)
    ensures SpaceBeforeUpper(s) == [] || !IsUpper(SpaceBeforeUpper(s)[0])
    ensures CapitalsAfterSpace(SpaceBeforeUpper(s))
  {
    if s != [] {
      SpaceBeforeUpperSpaced(s[1..]);
      var head := if IsUpper(s[0]) then [' ', s[0]] else [s[0]];
      var tail := SpaceBeforeUpper(s[1..]);
      var r := head + tail;
      forall i, j | 0 <= i < |r| && 0 <= j < |r| && j == i + 1 && IsUpper(r[j]) ensures r[i] == ' ' {
        if i >= |head| { assert r[i] == tail[i - |head|] && r[j] == tail[j - |head|]; }
      }
    }
  }

  /** The heading of a rendered field: spaced camel case, `_` as space, trimmed. */
  function FieldLabel(key: string): (r: string)
    ensures r == [] || (!IsWhitespace(r[0]) && !IsWhitespace(r[|r| - 1]))
  {
    Trim(ReplaceAll(SpaceBeforeUpper(key), '_', ' '))
  }

  /** ' ' and '_', the characters the label transform inserts, rewrites or trims, with the other whitespace. */
  predicate IsSeparator(c: char) {
    IsWhitespace(c) || c == '_'
  }

  /** The text without separators. */
  function Squeeze(s: string): (r: string)
    ensures |r| <= |s|
    ensures forall i :: 0 <= i < |r| ==> !IsSeparator(r[i])
  {
    if s == [] then [] else (if IsSeparator(s[0]) then [] else [s[0]]) + Squeeze(s[1..])
  }

  lemma {:induction false} SqueezeAppend(a: string, b: string)
    ensures Squeeze(a + b) == Squeeze(a) + Squeeze(b)
  {
    if a == [] {
      assert a + b == b;
    } else {
      assert (a + b)[1..] == a[1..] + b;
      SqueezeAppend(a[1..], b);
    }
  }

  lemma {:induction false} SqueezeBlank(s: string)
    requires forall i :: 0 <= i < |s| ==> IsSeparator(s[i])
    ensures Squeeze(s) == []
  {
    if s != [] { SqueezeBlank(s[1..]); }
  }

  lemma {:induction false} SqueezeSpaceBeforeUpper(s: string)
    ensures Squeeze(SpaceBeforeUpper(s)) == Squeeze(s)
  {
    if s != [] {
      var head := if IsUpper(s[0]) then [' ', s[0]] else [s[0]];
      SqueezeAppend(head, SpaceBeforeUpper(s[1..]));
      SqueezeSpaceBeforeUpper(s[1..]);
      if IsUpper(s[0]) {
        assert Squeeze(head) == [s[0]] by {
          assert head[1..] == [s[0]];
        }
      }
    }
  }

  lemma {:induction false} SqueezeReplaceUnderscore(s: string)
    ensures Squeeze(ReplaceAll(s, '_', ' ')) == Squeeze(s)
  {
    if s != [] {
      var t := ReplaceAll(s, '_', ' ');
      assert t == [t[0]] + t[1..];
      assert t[1..] == ReplaceAll(s[1..], '_', ' ');
      SqueezeAppend([t[0]], t[1..]);
      SqueezeReplaceUnderscore(s[1..]);
    }
  }

  lemma SqueezeTrim(s: string)
    ensures Squeeze(Trim(s)) == Squeeze(s)
  {
    var r := Trim(s);
    var k := TrimLow(s);
    assert s == s[..k] + r + s[k + |r|..];
    SqueezeAppend(s[..k] + r, s[k + |r|..]);
    SqueezeAppend(s[..k], r);
    SqueezeBlank(s[..k]);
    SqueezeBlank(s[k + |r|..]);
  }

  lemma NoUnderscoreReplaced(u: string)
    ensures '_' !in ReplaceAll(u, '_', ' ')
  {
    var t := ReplaceAll(u, '_', ' ');
    forall i | 0 <= i < |t| ensures t[i] != '_' {
      assert t[i] == if u[i] == '_' then ' ' else u[i];
    }
  }

  lemma AbsentFromSlice(t: string, lo: nat, hi: nat, c: char)
    requires lo <= hi <= |t| && c !in t
    ensures c !in t[lo..hi]
  {
    forall i | 0 <= i < hi - lo ensures t[lo..hi][i] != c {
      assert t[lo..hi][i] == t[lo + i];
    }
  }

  lemma NoUnderscoreInLabel(key: string)
    ensures '_' !in FieldLabel(key)
  {
    var t := ReplaceAll(SpaceBeforeUpper(key), '_', ' ');
    NoUnderscoreReplaced(SpaceBeforeUpper(key));
    AbsentFromSlice(t, TrimLow(t), TrimHigh(t), '_');
  }

  lemma CapitalsAfterSpaceReplace(u: string)
    requires CapitalsAfterSpace(u)
    ensures CapitalsAfterSpace(ReplaceAll(u, '_', ' '))
  {
    var t := ReplaceAll(u, '_', ' ');
    forall i, j | 0 <= i < |t| && 0 <= j < |t| && j == i + 1 && IsUpper(t[j]) ensures t[i] == ' ' {
      assert IsUpper(u[j]) && (u[i] == ' ' ==> t[i] == ' ');
    }
  }

  lemma CapitalsAfterSpaceSlice(t: string, lo: nat, hi: nat)
    requires lo <= hi <= |t| && CapitalsAfterSpace(t)
    ensures CapitalsAfterSpace(t[lo..hi])
  {
    var r := t[lo..hi];
    forall i, j | 0 <= i < |r| && 0 <= j < |r| && j == i + 1 && IsUpper(r[j]) ensures r[i] == ' ' {
      assert r[i] == t[lo + i] && r[j] == t[lo + j];
    }
  }

  lemma UpperFollowsSpaceInLabel(key: string)
    ensures CapitalsAfterSpace(FieldLabel(key))
  {
    var t := ReplaceAll(SpaceBeforeUpper(key), '_', ' ');
    SpaceBeforeUpperSpaced(key);
    CapitalsAfterSpaceReplace(SpaceBeforeUpper(key));
    CapitalsAfterSpaceSlice(t, TrimLow(t), TrimHigh(t));
  }

  /**
   * What the label transform keeps and adds: no `_` survives, the label
   * neither starts nor ends with whitespace, every upper-case letter after
   * the first position follows a space, and apart from separators the label
   * spells the key character for character.
   */
  lemma FieldLabelProperties(key: string)
    ensures '_' !in FieldLabel(key)
    ensures FieldLabel(key) == [] || (!IsWhitespace(FieldLabel(key)[0]) && !IsWhitespace(FieldLabel(key)[|FieldLabel(key)| - 1]))
    ensures CapitalsAfterSpace(FieldLabel(key))
    ensures Squeeze(FieldLabel(key)) == Squeeze(key)
  {
    NoUnderscoreInLabel(key);
    UpperFollowsSpaceInLabel(key);
    var u := SpaceBeforeUpper(key);
    SqueezeSpaceBeforeUpper(key);
    SqueezeReplaceUnderscore(u);
    SqueezeTrim(ReplaceAll(u, '_', ' '));
  }

  lemma {:induction false} SpaceBeforeUpperAppend(a: string, b: string)
    ensures SpaceBeforeUpper(a + b) == SpaceBeforeUpper(a) + SpaceBeforeUpper(b)
  {
    if a == [] {
      assert a + b == b;
    } else {
      assert (a + b)[1..] == a[1..] + b;
      SpaceBeforeUpperAppend(a[1..], b);
    }
  }

  lemma {:induction false} SpaceBeforeUpperNoUpper(s: string)
    requires forall i :: 0 <= i < |s| ==> !IsUpper(s[i])
    ensures SpaceBeforeUpper(s) == s
  {
    if s != [] { SpaceBeforeUpperNoUpper(s[1..]); }
  }

  /** A plain word: non-empty, no upper-case letter, no separator. */
  predicate PlainWord(w: string) {
    w != [] && forall i :: 0 <= i < |w| ==> !IsUpper(w[i]) && !IsSeparator(w[i])
  }

  /** Before trimming, the `_` of a snake-case key `a_b` has become a space. */
  lemma SnakeCaseSpaced(a: string, b: string)
    requires PlainWord(a) && PlainWord(b)
    ensures ReplaceAll(SpaceBeforeUpper(a + "_" + b), '_', ' ') == a + " " + b
  {
    var s := a + "_" + b;
    var t := a + " " + b;
    forall i | 0 <= i < |s| ensures !IsUpper(s[i]) {
      if i < |a| { assert s[i] == a[i]; } else if i > |a| { assert s[i] == b[i - |a| - 1]; }
    }
    SpaceBeforeUpperNoUpper(s);
    forall i | 0 <= i < |s| ensures ReplaceAll(s, '_', ' ')[i] == t[i] {
      if i < |a| { assert s[i] == a[i] && t[i] == a[i]; }
      else if i > |a| { assert s[i] == b[i - |a| - 1] && t[i] == b[i - |a| - 1]; }
    }
  }

  /** A snake-case key `a_b` is shown as `a b`. */
  lemma SnakeCaseLabel(a: string, b: string)
    requires PlainWord(a) && PlainWord(b)
    ensures FieldLabel(a + "_" + b) == a + " " + b
  {
    var t := a + " " + b;
    SnakeCaseSpaced(a, b);
    assert t[0] == a[0] && t[|t| - 1] == b[|b| - 1];
    TrimUnchanged(t);
  }

  lemma SpaceBeforeCapital(c: char)
    requires IsUpper(c)
    ensures SpaceBeforeUpper([c]) == [' ', c]
  {
    assert [c][1..] == [];
  }

  lemma CamelCaseSpaced(a: string, c: char, b: string)
    requires PlainWord(a) && IsUpper(c) && PlainWord(b)
    ensures SpaceBeforeUpper(a + [c] + b) == a + [' ', c] + b
  {
    SpaceBeforeUpperNoUpper(a);
    SpaceBeforeUpperNoUpper(b);
    SpaceBeforeCapital(c);
    SpaceBeforeUpperAppend([c], b);
    SpaceBeforeUpperAppend(a, [c] + b);
    assert a + ([c] + b) == a + [c] + b;
    assert a + ([' ', c] + b) == a + [' ', c] + b;
  }

  /** A camel-case key `aCb` is shown as `a Cb`. */
  lemma CamelCaseLabel(a: string, c: char, b: string)
    requires PlainWord(a) && IsUpper(c) && PlainWord(b)
    ensures FieldLabel(a + [c] + b) == a + [' ', c] + b
  {
    CamelCaseSpaced(a, c, b);
    var u := a + [' ', c] + b;
    forall i | 0 <= i < |u| ensures u[i] != '_' {
      if i < |a| { assert u[i] == a[i]; } else if i >= |a| + 2 { assert u[i] == b[i - |a| - 2]; }
    }
    ReplaceAllAbsent(u, '_', ' ');
    assert u[0] == a[0] && u[|u| - 1] == b[|b| - 1];
    TrimUnchanged(u);
  }

  /** A rendered field of the document view. */
  datatype Section = Section(heading: string, value: JsValue)

  function Sections(fs: seq<Field>): (r: seq<Section>)
    ensures |r| == |fs|
    ensures forall i :: 0 <= i < |fs| ==> r[i] == Section(FieldLabel(fs[i].key), fs[i].value)
  {
    if fs == [] then [] else [Section(FieldLabel(fs[0].key), fs[0].value)] + Sections(fs[1..])
  }

  /** The document view: the shown entries of the phase data, each under its label. */
  function DocumentSections(d: AnyPhaseData): (r: seq<Section>)
    ensures |r| <= |Entries(d)|
    ensures forall s :: s in r ==> Truthy(s.value) && '_' !in s.heading
  {
    var shown := ShownFields(Entries(d));
    var r := Sections(shown);
    forall s | s in r ensures Truthy(s.value) && '_' !in s.heading {
      var i :| 0 <= i < |r| && r[i] == s;
      assert shown[i] in shown;
      NoUnderscoreInLabel(shown[i].key);
    }
    r
  }

  /** A freshly seeded phase has nothing to show in the document view. */
  lemma SeededDocumentIsEmpty(id: int)
    ensures DocumentSections(Constants.SeedData(id)) == []
  {
    var d := Constants.SeedData(id);
    Constants.SeedDataBlank(id);
    var es := Entries(d);
    forall i | 0 <= i < |es| ensures !IsShown(es[i]) {
      assert i == 0 || i == 1 || i == 2 || i == 3 || i == 4;
    }
    NoneShown(es);
  }

  // --- Status label ---

  /** `status.replace('_', ' ')`: only the first underscore becomes a space. */
  function StatusLabel(s: PhaseStatus): (r: string)
    ensures |r| == |StatusValue(s)|
    ensures forall i :: 0 <= i < |r| ==> r[i] == StatusValue(s)[i] || (StatusValue(s)[i] == '_' && r[i] == ' ')
  {
    ReplaceFirst(StatusValue(s), '_', ' ')
  }

  /** `t` is `s` with its first underscore, at `k`, turned into a space. */
  lemma ReplaceFirstAt(s: string, k: nat, t: string)
    requires k < |s| == |t| && s[k] == '_' && t[k] == ' '
    requires forall j :: 0 <= j < k ==> s[j] != '_'
    requires forall j :: 0 <= j < |s| && j != k ==> t[j] == s[j]
    ensures ReplaceFirst(s, '_', ' ') == t
  {
    assert s[k] in s;
    assert IndexOf(s, '_') == k;
  }

  lemma NotStartedLabel()
    ensures StatusLabel(NotStarted) == "NOT STARTED"
  {
    ReplaceFirstAt("NOT_STARTED", 3, "NOT STARTED");
  }

  /** A value without underscores is its own label. */
  lemma NoUnderscoreLabel(s: PhaseStatus)
    requires forall j :: 0 <= j < |StatusValue(s)| ==> StatusValue(s)[j] != '_'
    ensures StatusLabel(s) == StatusValue(s)
  {
    assert '_' !in StatusValue(s);
  }

  lemma DraftLabel()
    ensures StatusLabel(Draft) == "DRAFT"
  {
    var s := StatusValue(Draft);
    forall j | 0 <= j < |s| ensures s[j] != '_' {
      assert j == 0 || j == 1 || j == 2 || j == 3 || j == 4;
    }
    NoUnderscoreLabel(Draft);
  }

  lemma ApprovedLabel()
    ensures StatusLabel(Approved) == "APPROVED"
  {
    var s := StatusValue(Approved);
    forall j | 0 <= j < |s| ensures s[j] != '_' {
      assert j == 0 || j == 1 || j == 2 || j == 3 || j == 4 || j == 5 || j == 6 || j == 7;
    }
    NoUnderscoreLabel(Approved);
  }

  lemma NeedsReviewLabel()
    ensures StatusLabel(NeedsReview) == "NEEDS REVIEW"
  {
    ReplaceFirstAt("NEEDS_REVIEW", 5, "NEEDS REVIEW");
  }

  /** Distinct statuses get distinct labels: the four labels differ in length. */
  lemma StatusLabelInjective()
    ensures forall a, b :: StatusLabel(a) == StatusLabel(b) ==> a == b
  {
    forall a, b | StatusLabel(a) == StatusLabel(b) ensures a == b {
      assert |StatusValue(a)| == |StatusValue(b)|;
    }
  }

  /** The four labels the badge shows. */
  lemma StatusLabels()
    ensures StatusLabel(NotStarted) == "NOT STARTED"
    ensures StatusLabel(Draft) == "DRAFT"
    ensures StatusLabel(NeedsReview) == "NEEDS REVIEW"
    ensures StatusLabel(Approved) == "APPROVED"
  {
    NotStartedLabel();
    NeedsReviewLabel();
    DraftLabel();
    ApprovedLabel();
  }

  // --- Phase 5 and phase 8 views ---

  /** `data.objectives || []`. */
  function ObjectiveList(d: Phase5Data): (r: seq<ObjectiveItem>)
    ensures d.objectives.None? ==> r == []
    ensures d.objectives.Some? ==> r == d.objectives.value
  {
    d.objectives.GetOr([])
  }

  /** `data.screens || []`. */
  function ScreenList(d: Phase8Data): (r: seq<StoryboardScreen>)
    ensures d.screens.None? ==> r == []
    ensures d.screens.Some? ==> r == d.screens.value
  {
    d.screens.GetOr([])
  }

  /** `String(idx + 1).padStart(2, '0')`. */
  function SceneNumber(idx: nat): (r: string)
    ensures |r| >= 2 && forall i :: 0 <= i < |r| ==> IsDigit(r[i])
    ensures DecimalValue(r) == idx + 1
    ensures idx + 1 < 10 ==> |r| == 2 && r[0] == '0'
    ensures idx + 1 >= 10 ==> r == NatToString(idx + 1)
  {
    var s := NatToString(idx + 1);
    NatToStringRoundTrip(idx + 1);
    var r := PadStart(s, 2, '0');
    if |s| < 2 then
      LeadingZerosValue(2 - |s|, s);
      assert r == Repeat('0', 2 - |s|) + s;
      r
    else
      r
  }

  /** `screen.type || 'Content'`. */
  function EffectiveScreenType(s: StoryboardScreen): (r: ScreenType)
    ensures s.screenType.Some? ==> r == s.screenType.value
    ensures s.screenType.None? ==> r == ContentScreen
  {
    s.screenType.GetOr(ContentScreen)
  }

  /** The header strip of one storyboard card. */
  datatype SceneCard = SceneCard(number: string, screenType: ScreenType, title: string)

  /** The storyboard: one card per screen, numbered 01, 02, ... in screen order. */
  function StoryboardCards(d: Phase8Data): (r: seq<SceneCard>)
    ensures |r| == |ScreenList(d)|
    ensures forall i :: 0 <= i < |r| ==>
      && |r[i].number| >= 2 && (forall k :: 0 <= k < |r[i].number| ==> IsDigit(r[i].number[k]))
      && DecimalValue(r[i].number) == i + 1
      && r[i].title == ScreenList(d)[i].title
      && r[i].screenType == EffectiveScreenType(ScreenList(d)[i])
  {
    var screens := ScreenList(d);
    seq(|screens|, i requires 0 <= i < |screens| =>
      SceneCard(SceneNumber(i), EffectiveScreenType(screens[i]), screens[i].title))
  }

  /** Scene numbers of a storyboard are pairwise distinct. */
  lemma SceneNumbersDistinct(i: nat, j: nat)
    requires i != j
    ensures SceneNumber(i) != SceneNumber(j)
  {
  }
}
