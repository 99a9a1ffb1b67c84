/**
 The "Add Interaction" form of prototype mode: the draft the form edits,
 the guard that decides when an interaction is handed to the caller, the
 reset after a successful add, the target choices and the preview labels.
 The layers the form is given are untyped in the source; here each is a
 view with an identifier, a type spelling and an optional display name.
 */
module Interaction {
  import opened Types

  /** A prototype edge from a trigger to an action on a target layer. */
  datatype Interaction = Interaction(id: string, trigger: string, action: string, target: string, animation: string)

  /** The draft the form edits. Every control writes a string, so every field is present. */
  datatype Form = Form(trigger: string, action: string, target: string, animation: string)

  /** The draft the form opens with and returns to after an add. */
  const DefaultForm := Form("click", "navigate-to", "", "none")

  /** The value of every trigger button, action option and animation option. */
  const TriggerValues: seq<string> := ["click", "hover", "press", "key"]
  const ActionValues: seq<string> := ["navigate-to", "open-overlay", "close-overlay", "back", "open-link", "swap-visibility"]
  const AnimationValues: seq<string> := ["none", "slide-left", "slide-right", "slide-up", "slide-down", "fade", "push"]

  /** A labelled entry of a button row or a drop-down. */
  datatype Choice = Choice(value: string, title: string)

  const Triggers: seq<Choice> := [
    Choice("click", "On Click"), Choice("hover", "On Hover"),
    Choice("press", "On Press"), Choice("key", "On Key Press")]

  // ---------------------------------------------------------------- editing and adding

  /** The four controls of the form. */
  datatype Control = TriggerControl | ActionControl | TargetControl | AnimationControl

  /** A control writes its value into its own field of the draft and leaves the others. */
  function Choose(f: Form, c: Control, v: string): (r: Form)
    ensures c.TriggerControl? || r.trigger == f.trigger
    ensures c.ActionControl? || r.action == f.action
    ensures c.TargetControl? || r.target == f.target
    ensures c.AnimationControl? || r.animation == f.animation
    ensures match c
      case TriggerControl => r.trigger == v
      case ActionControl => r.action == v
      case TargetControl => r.target == v
      case AnimationControl => r.animation == v
  {
    match c
    case TriggerControl => f.(trigger := v)
    case ActionControl => f.(action := v)
    case TargetControl => f.(target := v)
    case AnimationControl => f.(animation := v)
  }

  /** What pressing "Add Interaction" produces: the next draft, the emitted interaction if any, and whether the form closes. */
  datatype AddOutcome = AddOutcome(form: Form, emitted: Option<Interaction>, closed: bool)

  /**
   `handleAdd`. An interaction is emitted exactly when target, trigger and
   action are all non-empty; it copies them, takes the animation or "none"
   when the animation is empty, and its identifier is "interaction-"
   followed by the time stamp. After an emit the form closes and the draft
   returns to its defaults; otherwise nothing happens.
   */
  function HandleAdd(f: Form, stamp: string): (r: AddOutcome)
    ensures r.emitted.Some? <==> f.target != "" && f.trigger != "" && f.action != ""
    ensures r.emitted.None? ==> r.form == f && !r.closed
    ensures r.emitted.Some? ==> r.closed && r.form == DefaultForm
    ensures r.emitted.Some? ==>
      var i := r.emitted.value;
      && i.id == "interaction-" + stamp
      && i.trigger == f.trigger && i.action == f.action && i.target == f.target
      && i.animation == (if f.animation != "" then f.animation else "none")
  {
    if f.target != "" && f.trigger != "" && f.action != "" then
      var animation := if f.animation != "" then f.animation else "none";
      AddOutcome(DefaultForm, Some(Interaction("interaction-" + stamp, f.trigger, f.action, f.target, animation)), true)
    else
      AddOutcome(f, None, false)
  }

  /** The add button is enabled only when a target is chosen. */
  predicate AddEnabled(f: Form) {
    f.target != ""
  }

  /** Pressing add with no target, or on the default draft, emits nothing and keeps the draft. */
  lemma DisabledAddDoesNothing(f: Form, stamp: string)
    requires !AddEnabled(f)
    ensures HandleAdd(f, stamp) == AddOutcome(f, None, false)
  {
  }

  // ---------------------------------------------------------------- target choices

  /** A layer as the form sees it: identifier, type spelling and optional display name. */
  datatype LayerView = LayerView(id: string, kind: string, name: Option<string>)

  /** The layers whose type is "frame", and no others. */
  function Frames(views: seq<LayerView>): (r: seq<LayerView>)
    ensures |r| <= |views|
    ensures forall i :: 0 <= i < |r| ==> r[i] in views && r[i].kind == "frame"
    ensures forall i :: 0 <= i < |views| && views[i].kind == "frame" ==> views[i] in r
  {
    if |views| == 0 then []
    else if views[0].kind == "frame" then [views[0]] + Frames(views[1..])
    else Frames(views[1..])
  }

  /** A single layer is kept exactly when it is a frame. */
  lemma FramesSingle(v: LayerView)
    ensures Frames([v]) == if v.kind == "frame" then [v] else []
  {
  }

  /**
   Filtering keeps order and multiplicity: the frames of a concatenation are
   the frames of the first part followed by those of the second. With
   `FramesSingle` this pins the result down for every list.
   */
  lemma {:induction false} FramesAppend(a: seq<LayerView>, b: seq<LayerView>)
    ensures Frames(a + b) == Frames(a) + Frames(b)
    decreases |a|
  {
    if |a| > 0 {
      assert (a + b)[1..] == a[1..] + b;
      FramesAppend(a[1..], b);
    } else {
      assert a + b == b;
    }
  }

  /** The entry of a frame in the target drop-down: its name, or "Frame " and its identifier when it has none. */
  function FrameChoice(v: LayerView): (r: Choice)
    ensures r.value == v.id && r.title != ""
    ensures v.name.Some? && v.name.value != "" ==> r.title == v.name.value
    ensures v.name.None? || v.name.value == "" ==> r.title == "Frame " + v.id
  {
    Choice(v.id, if v.name.Some? && v.name.value != "" then v.name.value else "Frame " + v.id)
  }

  function FrameChoices(frames: seq<LayerView>): (r: seq<Choice>)
    ensures |r| == |frames|
    ensures forall i :: 0 <= i < |frames| ==> r[i] == FrameChoice(frames[i])
  {
    if |frames| == 0 then [] else [FrameChoice(frames[0])] + FrameChoices(frames[1..])
  }

  /**
   The target drop-down: a placeholder with the empty value, then one entry
   per frame. The only non-empty values it offers are frame identifiers.
   */
  function TargetChoices(views: seq<LayerView>): (r: seq<Choice>)
    ensures |r| >= 1 && r[0] == Choice("", "Select target...")
    ensures forall i :: 1 <= i < |r| ==> exists v :: v in views && v.kind == "frame" && r[i].value == v.id
    ensures |r| == 1 + |Frames(views)|
    ensures forall i :: 0 <= i < |Frames(views)| ==> r[i + 1] == FrameChoice(Frames(views)[i])
  {
    var frames := Frames(views);
    var choices := FrameChoices(frames);
    assert forall i :: 0 <= i < |choices| ==> frames[i] in views && frames[i].kind == "frame" && choices[i].value == frames[i].id;
    [Choice("", "Select target...")] + choices
  }

  /** A store layer seen by the form: its identifier and tag spelling, and no display name (the record has none). */
  function ViewOf(l: Layer): LayerView {
    LayerView(l.id, TypeName(l.kind), None)
  }

  function Views(ls: seq<Layer>): (r: seq<LayerView>)
    ensures |r| == |ls|
    ensures forall i :: 0 <= i < |ls| ==> r[i] == ViewOf(ls[i])
  {
    if |ls| == 0 then [] else [ViewOf(ls[0])] + Views(ls[1..])
  }

  /** No store layer is a frame, so the target drop-down holds only the placeholder. */
  lemma {:induction false} NoFrameTargets(ls: seq<Layer>)
    ensures Frames(Views(ls)) == []
    ensures TargetChoices(Views(ls)) == [Choice("", "Select target...")]
  {
    if |ls| > 0 {
      NoFrameTargets(ls[1..]);
      assert Views(ls)[1..] == Views(ls[1..]);
      assert Views(ls)[0].kind != "frame";
    }
  }

  /** A draft whose trigger, action and animation are values the buttons and options offer. */
  predicate FromControls(f: Form) {
    && f.trigger in TriggerValues
    && f.action in ActionValues
    && f.animation in AnimationValues
  }

  /** A target the drop-down offers. */
  predicate TargetOffered(target: string, views: seq<LayerView>) {
    exists c :: c in TargetChoices(views) && c.value == target
  }

  /** The default draft is one the controls show. */
  lemma DefaultFromControls(views: seq<LayerView>)
    ensures FromControls(DefaultForm) && TargetOffered(DefaultForm.target, views)
  {
    assert TargetChoices(views)[0] in TargetChoices(views);
  }

  /** On a draft the controls produced, the add guard reduces to "a target is chosen", which the button already requires. */
  lemma AddFromControls(f: Form, stamp: string)
    requires FromControls(f)
    ensures HandleAdd(f, stamp).emitted.Some? <==> AddEnabled(f)
  {
  }

  /**
   Over the store's layers no interaction can ever be added: the target
   drop-down offers only the empty value, so the guard never passes.
   */
  lemma NoInteractionFromStore(f: Form, ls: seq<Layer>, stamp: string)
    ensures TargetOffered(f.target, Views(ls)) ==> HandleAdd(f, stamp).emitted.None?
  {
    NoFrameTargets(ls);
  }

  // ---------------------------------------------------------------- preview labels

  function LowerChar(c: char): char {
    if 'A' <= c <= 'Z' then (c as int + 32) as char else c
  }

  /** ASCII lower case; the labels it is applied to are ASCII. */
  function Lower(s: string): (r: string)
    ensures |r| == |s|
    ensures forall i :: 0 <= i < |s| ==> r[i] == LowerChar(s[i])
  {
    seq(|s|, i requires 0 <= i < |s| => LowerChar(s[i]))
  }

  /** The label of the first entry whose value is `v`. */
  function FindLabel(table: seq<Choice>, v: string): (r: Option<string>)
    ensures r.None? <==> forall i :: 0 <= i < |table| ==> table[i].value != v
    ensures r.Some? ==> exists i :: 0 <= i < |table| && table[i].value == v && table[i].title == r.value
  {
    if |table| == 0 then None
    else if table[0].value == v then Some(table[0].title)
    else FindLabel(table[1..], v)
  }

  /** The trigger's button label in lower case, or empty for a value no button has. */
  function TriggerLabel(trigger: string): (r: string)
    ensures r != "" <==> trigger in TriggerValues
    ensures forall i :: 0 <= i < |r| ==> !('A' <= r[i] <= 'Z')
  {
    match FindLabel(Triggers, trigger)
    case Some(title) => Lower(title)
    case None => ""
  }

  /** The lower-cased label of the trigger in the table at position k. */
  lemma TriggerLabelAt(k: nat)
    requires k < |Triggers|
    ensures TriggerLabel(Triggers[k].value) == Lower(Triggers[k].title)
  {
  }

  /** The four trigger labels, as the preview shows them. */
  lemma TriggerLabels()
    ensures TriggerLabel("click") == "on click"
    ensures TriggerLabel("hover") == "on hover"
    ensures TriggerLabel("press") == "on press"
    ensures TriggerLabel("key") == "on key press"
  {
    TriggerLabelAt(0);
    TriggerLabelAt(1);
    TriggerLabelAt(2);
    TriggerLabelAt(3);
    LowerTitles();
  }

  lemma LowerMatches(s: string, t: string)
    requires |s| == |t| && forall i :: 0 <= i < |s| ==> LowerChar(s[i]) == t[i]
    ensures Lower(s) == t
  {
  }

  lemma LowerTitles()
    ensures Lower("On Click") == "on click"
    ensures Lower("On Hover") == "on hover"
    ensures Lower("On Press") == "on press"
    ensures Lower("On Key Press") == "on key press"
  {
  }

  /** The index of the first occurrence of `c`, if any. */
  function IndexOf(s: string, c: char): (r: Option<nat>)
    ensures r.None? <==> c !in s
    ensures r.Some? ==> r.value < |s| && s[r.value] == c && c !in s[..r.value]
  {
    if |s| == 0 then None
    else if s[0] == c then Some(0)
    else match IndexOf(s[1..], c)
      case None => None
      case Some(k) =>
        assert s[..k + 1] == [s[0]] + s[1..][..k];
        Some(k + 1)
  }

  /**
   `s.replace(from, to)` with a one-character string pattern: only the first
   occurrence is replaced; every character before and after it is kept.
   */
  function ReplaceFirst(s: string, from: char, to: char): (r: string)
    ensures |r| == |s|
    ensures from !in s ==> r == s
    ensures forall i :: 0 <= i < |s| && s[i] != from ==> r[i] == s[i]
    ensures forall i :: 0 <= i < |s| && s[i] == from ==> r[i] == (if from in s[..i] then from else to)
  {
    match IndexOf(s, from)
    case None => s
    case Some(k) =>
      var r := s[..k] + [to] + s[k + 1..];
      assert forall i :: k < i < |s| ==> s[..i][k] == from;
      r
  }

  /** The action in words: "navigate to" for "navigate-to", otherwise the action with its first "-" made a space. */
  function ActionLabel(action: string): (r: string)
    ensures |r| == |action|
    ensures action == "navigate-to" ==> r == "navigate to"
    ensures '-' !in action ==> r == action
  {
    if action == "navigate-to" then "navigate to" else ReplaceFirst(action, '-', ' ')
  }

  /** Where the first dash sits at index k, the label has a space there and is otherwise the action. */
  lemma DashAt(s: string, k: nat, prefix: string, suffix: string)
    requires k < |s| && s[k] == '-' && s[..k] == prefix && s[k + 1..] == suffix && '-' !in prefix
    ensures ReplaceFirst(s, '-', ' ') == prefix + " " + suffix
  {
  }

  /** The special case for "navigate-to" agrees with the general rule. */
  lemma NavigateLabelIsGeneralRule(a: string)
    requires a == "navigate-to"
    ensures ReplaceFirst(a, '-', ' ') == ActionLabel(a) == "navigate to"
  {
    DashAt(a, 8, "navigate", "to");
  }

  /*
   The label of each other action: its first dash made a space. Each lemma
   takes the action as a parameter pinned by its requires rather than
   writing the literal into the ensures: a literal argument makes the
   verifier unfold the string functions character by character, which is
   far slower than going through `DashAt`.
   */
  lemma OpenOverlayLabel(a: string)
    requires a == "open-overlay"
    ensures ActionLabel(a) == "open overlay"
  {
    DashAt(a, 4, "open", "overlay");
  }

  lemma CloseOverlayLabel(a: string)
    requires a == "close-overlay"
    ensures ActionLabel(a) == "close overlay"
  {
    DashAt(a, 5, "close", "overlay");
  }

  lemma BackLabel(a: string)
    requires a == "back"
    ensures ActionLabel(a) == "back"
  {
    assert '-' !in a;
  }

  lemma OpenLinkLabel(a: string)
    requires a == "open-link"
    ensures ActionLabel(a) == "open link"
  {
    DashAt(a, 4, "open", "link");
  }

  lemma SwapVisibilityLabel(a: string)
    requires a == "swap-visibility"
    ensures ActionLabel(a) == "swap visibility"
  {
    DashAt(a, 4, "swap", "visibility");
  }

  /** Only the first dash is replaced: "a-b-c" reads "a b-c". */
  lemma ActionLabelFirstDashOnly(a: string)
    requires a == "a-b-c"
    ensures ActionLabel(a) == "a b-c"
  {
    DashAt(a, 1, "a", "b-c");
  }

  /** The index of the first view with identifier `id`. */
  function FindIndex(views: seq<LayerView>, id: string): (r: Option<nat>)
    ensures r.None? <==> forall j :: 0 <= j < |views| ==> views[j].id != id
    ensures r.Some? ==> r.value < |views| && views[r.value].id == id
    ensures r.Some? ==> forall j :: 0 <= j < r.value ==> views[j].id != id
  {
    if |views| == 0 then None
    else if views[0].id == id then Some(0)
    else match FindIndex(views[1..], id)
      case None => None
      case Some(k) => Some(k + 1)
  }

  /**
   The target's name in the preview: the display name of the first layer with
   the target identifier, or "target" when there is no such layer or its name
   is missing or empty.
   */
  function TargetName(views: seq<LayerView>, target: string): (r: string)
    ensures r != ""
    ensures (forall j :: 0 <= j < |views| ==> views[j].id != target) ==> r == "target"
    ensures r != "target" ==> exists j :: 0 <= j < |views| && views[j].id == target && views[j].name == Some(r)
    ensures forall k :: FindIndex(views, target) == Some(k) && views[k].name.Some? && views[k].name.value != "" ==>
      r == views[k].name.value
    ensures forall k :: FindIndex(views, target) == Some(k) && (views[k].name.None? || views[k].name.value == "") ==>
      r == "target"
  {
    match FindIndex(views, target)
    case Some(k) => if views[k].name.Some? && views[k].name.value != "" then views[k].name.value else "target"
    case None => "target"
  }

  /** Store layers have no display name, so the preview always says "target". */
  lemma StoreTargetName(ls: seq<Layer>, target: string)
    ensures TargetName(Views(ls), target) == "target"
  {
  }

  /** The animation in the preview: empty exactly for "none" (and for the empty animation), the animation itself otherwise. */
  function AnimationLabel(animation: string): (r: string)
    ensures r == "" <==> animation == "none" || animation == ""
    ensures r != "" ==> r == animation
  {
    if animation != "none" then animation else ""
  }
}
