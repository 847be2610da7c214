/**
 * The decision and text-composition logic of the `[Button]` property drawer:
 * how the drawer classifies the selection (error, multi-selection, normal),
 * what label and tooltip it shows, and which targets a click invokes.
 *
 * Unity's reflection is replaced by a table of public method names per
 * target; GUI drawing and layout are not modelled.
 */
module ButtonDrawer {
  import opened Wrappers
  import opened DotNetString

  // ---------------------------------------------------------------------
  // Data model
  // ---------------------------------------------------------------------

  /** The look of the button. */
  datatype State = Normal | Multi | Error

  /** What the drawer reads from the attribute; Tooltip and Method may be null. */
  datatype ButtonAttribute = ButtonAttribute(labelText: string, tooltip: Option<string>, methodName: Option<string>)

  /**
   * A selected Unity object: its name (used in the console message) and the
   * names of the methods the lookup can see: its public instance methods,
   * inherited ones included, and the public static methods declared on its
   * own type (the lookup flags do not include FlattenHierarchy, so inherited
   * static methods are not visible), one entry per overload.
   */
  datatype Target = Target(name: string, publicMethods: multiset<string>)

  /** The part of the serialized object the drawer reads. */
  datatype SerializedObject = SerializedObject(targetObjects: seq<Target>, isEditingMultipleObjects: bool)

  /** The button content: its text and an optional tooltip. */
  datatype Content = Content(text: string, tooltip: Option<string>)

  /** The outcome of CallMethod on one target. */
  datatype CallOutcome = Invoked(target: Target) | LoggedError(message: string)

  /** The verdict of IsErrorState: the returned flag and the out message. */
  datatype ErrorCheck = ErrorCheck(isError: bool, message: string)

  const DefaultText: string := "DO!"
  const MultiMsg: string := "[Multiple objects selected]"
  const ErrorTextPrefix: string := "[ERROR] "

  const NoMethodMsg: string := "No method provided for button click"
  const NoObjectsMsg: string := "No objects selected"
  const MissingMethodMsg: string := "Provided method doesn't exist on the selected objects"
  const PartialSupportMsg: string := "Can't perform action on selected objects because not all of them support it."

  // ---------------------------------------------------------------------
  // Label and tooltip
  // ---------------------------------------------------------------------

  /** The label as displayed in every state but Error: trimmed, or "DO!" when nothing is left. */
  function BaseText(labelText: string): (text: string)
    ensures text != []
    ensures Trim(labelText) != [] ==> text == Trim(labelText)
    ensures Trim(labelText) == [] ==> text == DefaultText
    ensures !IsWhiteSpace(text[0]) && !IsWhiteSpace(text[|text| - 1])
  {
    var trimmed := Trim(labelText);
    if trimmed == [] then DefaultText else trimmed
  }

  /** The displayed base text is already trimmed: trimming it again changes nothing. */
  lemma BaseTextIsTrimmed(labelText: string)
    ensures Trim(BaseText(labelText)) == BaseText(labelText)
  {
    TrimOfTrimmed(BaseText(labelText));
  }

  /** The "[ERROR: ...]" part of the tooltip in the Error state. */
  function ErrorTooltip(errorMessage: string): (msg: string)
    ensures |msg| == |errorMessage| + 9
    ensures msg[..8] == "[ERROR: " && msg[8..|msg| - 1] == errorMessage && msg[|msg| - 1] == ']'
  {
    "[ERROR: " + errorMessage + "]"
  }

  /**
   * ButtonContent: the text and tooltip of the button in the given state.
   * The text is the base text, prefixed by "[ERROR] " in the Error state.
   * The tooltip is the attribute's tooltip, preceded by the error line in
   * the Error state or followed by the multi-selection line in the Multi
   * state; a tooltip is attached only when it is not empty.
   */
  function ButtonContent(attr: ButtonAttribute, state: State, errorMessage: string): (c: Content)
    ensures state == Error ==> c.text == ErrorTextPrefix + BaseText(attr.labelText)
    ensures state != Error ==> c.text == BaseText(attr.labelText)
    ensures state == Error ==> c.tooltip == Some(
      if IsNullOrEmpty(attr.tooltip) then ErrorTooltip(errorMessage)
      else ErrorTooltip(errorMessage) + "\n" + attr.tooltip.value)
    ensures state == Multi ==> c.tooltip == Some(
      if IsNullOrEmpty(attr.tooltip) then MultiMsg
      else attr.tooltip.value + "\n" + MultiMsg)
    ensures state == Normal ==> (c.tooltip.Some? <==> !IsNullOrEmpty(attr.tooltip))
    ensures state == Normal && c.tooltip.Some? ==> c.tooltip == attr.tooltip
    ensures c.tooltip != Some("")
  {
    var text := BaseText(attr.labelText);
    var tooltip :=
      match state
      case Error =>
        var msg := ErrorTooltip(errorMessage);
        Some(if IsNullOrEmpty(attr.tooltip) then msg else msg + "\n" + attr.tooltip.value)
      case Multi =>
        Some(if IsNullOrEmpty(attr.tooltip) then MultiMsg else attr.tooltip.value + "\n" + MultiMsg)
      case Normal =>
        attr.tooltip;
    var text := if state == Error then ErrorTextPrefix + text else text;
    Content(text, if IsNullOrEmpty(tooltip) then None else tooltip)
  }

  /** The attribute's tooltip as the author meant it: none when null or empty. */
  function AuthorTooltip(attr: ButtonAttribute): Option<string> {
    if IsNullOrEmpty(attr.tooltip) then None else attr.tooltip
  }

  /**
   * Reads the author's tooltip back out of a displayed tooltip, knowing the
   * state and the error message it was built with.
   */
  function RecoverTooltip(shown: Option<string>, state: State, errorMessage: string): Option<string> {
    match state
    case Normal => shown
    case Error =>
      var n := |ErrorTooltip(errorMessage)|;
      if shown.None? || |shown.value| <= n + 1 then None else Some(shown.value[n + 1..])
    case Multi =>
      var n := |MultiMsg|;
      if shown.None? || |shown.value| <= n + 1 then None else Some(shown.value[..|shown.value| - n - 1])
  }

  /** Reads the base text back out of a displayed text, knowing the state. */
  function RecoverText(shown: string, state: State): string {
    if state == Error && |shown| >= |ErrorTextPrefix| then shown[|ErrorTextPrefix|..] else shown
  }

  /**
   * Composition loses nothing: whatever the state and error message, the
   * author's tooltip and the base text can be read back from the content.
   */
  lemma ContentRoundTrip(attr: ButtonAttribute, state: State, errorMessage: string)
    ensures RecoverTooltip(ButtonContent(attr, state, errorMessage).tooltip, state, errorMessage) == AuthorTooltip(attr)
    ensures RecoverText(ButtonContent(attr, state, errorMessage).text, state) == BaseText(attr.labelText)
  {
    var c := ButtonContent(attr, state, errorMessage);
    if state == Error && !IsNullOrEmpty(attr.tooltip) {
      var msg := ErrorTooltip(errorMessage);
      assert c.tooltip.value == msg + "\n" + attr.tooltip.value;
      assert c.tooltip.value[|msg| + 1..] == attr.tooltip.value;
    } else if state == Multi && !IsNullOrEmpty(attr.tooltip) {
      assert c.tooltip.value == attr.tooltip.value + "\n" + MultiMsg;
      assert c.tooltip.value[..|c.tooltip.value| - |MultiMsg| - 1] == attr.tooltip.value;
    }
    if state == Error {
      assert c.text[|ErrorTextPrefix|..] == BaseText(attr.labelText);
    }
  }

  /** Only the Normal state can show a button without a tooltip. */
  lemma TooltipAbsentOnlyWhenNormal(attr: ButtonAttribute, state: State, errorMessage: string)
    requires ButtonContent(attr, state, errorMessage).tooltip.None?
    ensures state == Normal && IsNullOrEmpty(attr.tooltip)
  {
  }

  // ---------------------------------------------------------------------
  // Reflection, abstracted
  // ---------------------------------------------------------------------

  /**
   * GetMethod: Type.GetMethod(name, Instance | Public | Static) finds the
   * method when exactly one public method has that name; a null name or an
   * overloaded name makes it throw, and the exception is swallowed, so the
   * lookup yields null.
   */
  predicate GetMethod(target: Target, methodName: Option<string>)
    ensures GetMethod(target, methodName) ==> methodName.Some? && methodName.value in target.publicMethods
    ensures methodName.None? ==> !GetMethod(target, methodName)
    ensures methodName.Some? && target.publicMethods[methodName.value] > 1 ==> !GetMethod(target, methodName)
    ensures methodName.Some? && target.publicMethods[methodName.value] == 1 ==> GetMethod(target, methodName)
  {
    methodName.Some? && target.publicMethods[methodName.value] == 1
  }

  /** string.Format renders a null argument as "". */
  function FormatArg(s: Option<string>): string {
    if s.None? then "" else s.value
  }

  /**
   * The console message logged when a target lacks the method: it opens with
   * the object's name in angle brackets and closes with the method's name
   * (empty for a null name) in angle brackets.
   */
  function NotFoundMessage(target: Target, methodName: Option<string>): (m: string)
    ensures |m| == |target.name| + |FormatArg(methodName)| + 76
    ensures m[..11 + |target.name|] == "Button on <" + target.name
    ensures m[11 + |target.name|..21 + |target.name|] == "> object:\n"
    ensures m[|m| - |FormatArg(methodName)| - 9..] == "<" + FormatArg(methodName) + "> method"
  {
    "Button on <" + target.name + "> object:\n" +
    "Can't perform since the object doesn't have a <" + FormatArg(methodName) + "> method"
  }

  /** CallMethod: invokes the method when found, logs an error otherwise. */
  function CallMethod(target: Target, methodName: Option<string>): (r: CallOutcome)
    ensures r.Invoked? <==> GetMethod(target, methodName)
    ensures r.Invoked? ==> r.target == target
    ensures r.LoggedError? ==> r.message == NotFoundMessage(target, methodName)
  {
    if GetMethod(target, methodName) then Invoked(target) else LoggedError(NotFoundMessage(target, methodName))
  }

  // ---------------------------------------------------------------------
  // Error state
  // ---------------------------------------------------------------------

  /** Every target has the method. */
  ghost predicate AllSupport(targets: seq<Target>, methodName: Option<string>) {
    forall k :: 0 <= k < |targets| ==> GetMethod(targets[k], methodName)
  }

  /** No target has the method. */
  ghost predicate NoneSupport(targets: seq<Target>, methodName: Option<string>) {
    forall k :: 0 <= k < |targets| ==> !GetMethod(targets[k], methodName)
  }

  /** How many targets have the method. */
  function CountSupporting(targets: seq<Target>, methodName: Option<string>): (n: nat)
    ensures n <= |targets|
    ensures n == 0 <==> NoneSupport(targets, methodName)
    ensures n == |targets| <==> AllSupport(targets, methodName)
  {
    if targets == [] then 0
    else
      var init := targets[..|targets| - 1];
      CountSupporting(init, methodName) + (if GetMethod(targets[|targets| - 1], methodName) then 1 else 0)
  }

  /**
   * The verdict IsErrorState computes. The conditions are checked in this
   * order: a missing method name, then a missing or empty selection, then
   * how many targets have the method.
   */
  function Verdict(methodName: Option<string>, targets: Option<seq<Target>>): (v: ErrorCheck)
    ensures !v.isError <==>
      !IsNullOrEmpty(methodName) && targets.Some? && |targets.value| > 0 && AllSupport(targets.value, methodName)
    ensures v.message == "" <==> !v.isError
  {
    if IsNullOrEmpty(methodName) then ErrorCheck(true, NoMethodMsg)
    else if targets.None? || |targets.value| == 0 then ErrorCheck(true, NoObjectsMsg)
    else
      var okTargets := CountSupporting(targets.value, methodName);
      if okTargets == 0 then ErrorCheck(true, MissingMethodMsg)
      else if okTargets < |targets.value| then ErrorCheck(true, PartialSupportMsg)
      else ErrorCheck(false, "")
  }

  /** A missing method name wins over everything else. */
  lemma NoMethodWhateverTheTargets(methodName: Option<string>, targets: Option<seq<Target>>)
    requires IsNullOrEmpty(methodName)
    ensures Verdict(methodName, targets) == ErrorCheck(true, NoMethodMsg)
  {
  }

  /** With a method name, a null or empty selection is reported next. */
  lemma NoObjectsBeforeLookup(methodName: Option<string>, targets: Option<seq<Target>>)
    requires !IsNullOrEmpty(methodName)
    requires targets.None? || targets.value == []
    ensures Verdict(methodName, targets) == ErrorCheck(true, NoObjectsMsg)
  {
  }

  /**
   * With a method name and a selection, the verdict follows from which
   * targets have the method: none, some but not all, or all of them.
   */
  lemma VerdictBySupport(methodName: Option<string>, targets: seq<Target>)
    requires !IsNullOrEmpty(methodName) && targets != []
    ensures NoneSupport(targets, methodName) ==> Verdict(methodName, Some(targets)) == ErrorCheck(true, MissingMethodMsg)
    ensures !NoneSupport(targets, methodName) && !AllSupport(targets, methodName) ==>
      Verdict(methodName, Some(targets)) == ErrorCheck(true, PartialSupportMsg)
    ensures AllSupport(targets, methodName) ==> Verdict(methodName, Some(targets)) == ErrorCheck(false, "")
  {
  }

  /** IsErrorState: counts the targets that have the method, in one pass. */
  method IsErrorState(methodName: Option<string>, targets: Option<seq<Target>>) returns (isError: bool, message: string)
    ensures ErrorCheck(isError, message) == Verdict(methodName, targets)
    ensures !isError <==>
      !IsNullOrEmpty(methodName) && targets.Some? && |targets.value| > 0 && AllSupport(targets.value, methodName)
  {
    if IsNullOrEmpty(methodName) {
      message := NoMethodMsg;
      return true, message;
    }
    if targets.None? || |targets.value| == 0 {
      message := NoObjectsMsg;
      return true, message;
    }
    var ts := targets.value;
    var okTargets := 0;
    var numTargets := |ts|;
    for i := 0 to numTargets
      invariant okTargets == CountSupporting(ts[..i], methodName)
    {
      assert ts[..i + 1][..i] == ts[..i];
      if GetMethod(ts[i], methodName) {
        okTargets := okTargets + 1;
      }
    }
    assert ts[..numTargets] == ts;
    if okTargets == 0 {
      message := MissingMethodMsg;
      return true, message;
    }
    if okTargets < numTargets {
      message := PartialSupportMsg;
      return true, message;
    }
    message := "";
    return false, message;
  }

  // ---------------------------------------------------------------------
  // Button state
  // ---------------------------------------------------------------------

  /** The state GetState picks: Error first, then Multi, then Normal. */
  function StateOf(prop: SerializedObject, methodName: Option<string>): (s: State)
    ensures s == Error <==> Verdict(methodName, Some(prop.targetObjects)).isError
    ensures s == Multi <==>
      !Verdict(methodName, Some(prop.targetObjects)).isError &&
      (prop.isEditingMultipleObjects || |prop.targetObjects| > 1)
  {
    var isMulti := prop.isEditingMultipleObjects || |prop.targetObjects| > 1;
    if Verdict(methodName, Some(prop.targetObjects)).isError then Error
    else if isMulti then Multi else Normal
  }

  /**
   * The button is out of the Error state exactly when the attribute names a
   * method and every selected object has it.
   */
  lemma NotErrorIffAllSupport(prop: SerializedObject, methodName: Option<string>)
    ensures StateOf(prop, methodName) != Error <==>
      !IsNullOrEmpty(methodName) && prop.targetObjects != [] && AllSupport(prop.targetObjects, methodName)
  {
  }

  /** GetState: reads the selection and classifies the button. */
  method GetState(prop: SerializedObject, methodName: Option<string>)
    returns (state: State, targets: seq<Target>, numTargets: nat, isMulti: bool, isError: bool, errorMessage: string)
    ensures targets == prop.targetObjects && numTargets == |targets|
    ensures isMulti <==> prop.isEditingMultipleObjects || numTargets > 1
    ensures ErrorCheck(isError, errorMessage) == Verdict(methodName, Some(targets))
    ensures state == StateOf(prop, methodName)
    ensures state == Error <==> isError
    ensures state == Multi <==> !isError && isMulti
  {
    targets := prop.targetObjects;
    numTargets := |targets|;
    isMulti := prop.isEditingMultipleObjects || numTargets > 1;
    isError, errorMessage := IsErrorState(methodName, Some(targets));
    state := if isError then Error else if isMulti then Multi else Normal;
  }

  // ---------------------------------------------------------------------
  // Click dispatch
  // ---------------------------------------------------------------------

  /** The outcomes of a click: one CallMethod per target, in index order, unless not pressed or in error. */
  function ClickCalls(isPressed: bool, isError: bool, targets: seq<Target>, methodName: Option<string>): (calls: seq<CallOutcome>)
    ensures !isPressed || isError ==> calls == []
    ensures isPressed && !isError ==> |calls| == |targets|
    ensures isPressed && !isError ==> forall k :: 0 <= k < |calls| ==> calls[k] == CallMethod(targets[k], methodName)
  {
    if isPressed && !isError then seq(|targets|, k requires 0 <= k < |targets| => CallMethod(targets[k], methodName))
    else []
  }

  /** The targets whose method was invoked, in order. */
  function InvokedTargets(calls: seq<CallOutcome>): seq<Target> {
    if calls == [] then []
    else (if calls[0].Invoked? then [calls[0].target] else []) + InvokedTargets(calls[1..])
  }

  /** The console messages logged, in order. */
  function LoggedMessages(calls: seq<CallOutcome>): seq<string> {
    if calls == [] then []
    else (if calls[0].LoggedError? then [calls[0].message] else []) + LoggedMessages(calls[1..])
  }

  lemma {:induction false} AllInvoked(calls: seq<CallOutcome>)
    requires forall k :: 0 <= k < |calls| ==> calls[k].Invoked?
    ensures |InvokedTargets(calls)| == |calls|
    ensures forall k :: 0 <= k < |calls| ==> InvokedTargets(calls)[k] == calls[k].target
    ensures LoggedMessages(calls) == []
  {
    if calls != [] {
      AllInvoked(calls[1..]);
    }
  }

  /**
   * A click on a button that is not in the Error state invokes the method on
   * every selected object exactly once, in selection order, and never takes
   * the "method not found" branch; any other click invokes nothing.
   */
  lemma ClickInvokesEachTargetOnce(prop: SerializedObject, methodName: Option<string>, isPressed: bool)
    ensures var isError := StateOf(prop, methodName) == Error;
      var calls := ClickCalls(isPressed, isError, prop.targetObjects, methodName);
      LoggedMessages(calls) == [] &&
      InvokedTargets(calls) == if isPressed && !isError then prop.targetObjects else []
  {
    var isError := StateOf(prop, methodName) == Error;
    var calls := ClickCalls(isPressed, isError, prop.targetObjects, methodName);
    if isPressed && !isError {
      NotErrorIffAllSupport(prop, methodName);
      AllInvoked(calls);
    }
  }

  /**
   * OnGUI, without the drawing: classifies the button, builds its content,
   * disables it in the Error state, tints it under multi-selection, and on a
   * press outside the Error state calls the method on each target in turn.
   * `isPressed` is what GUI.Button reports for this frame.
   */
  method OnGUI(attr: ButtonAttribute, prop: SerializedObject, isPressed: bool)
    returns (content: Content, disabled: bool, tinted: bool, calls: seq<CallOutcome>)
    ensures var state := StateOf(prop, attr.methodName);
      content == ButtonContent(attr, state, Verdict(attr.methodName, Some(prop.targetObjects)).message) &&
      (disabled <==> state == Error)
    ensures tinted <==> prop.isEditingMultipleObjects || |prop.targetObjects| > 1
    ensures calls == ClickCalls(isPressed, disabled, prop.targetObjects, attr.methodName)
    ensures forall k :: 0 <= k < |calls| ==> calls[k] == Invoked(prop.targetObjects[k])
  {
    var methodName := attr.methodName;
    var state, targets, numTargets, isMulti, isError, errorMessage := GetState(prop, methodName);
    content := ButtonContent(attr, state, errorMessage);
    disabled := isError;
    tinted := isMulti;
    calls := [];
    if isPressed && !isError {
      for i := 0 to numTargets
        invariant |calls| == i
        invariant forall k :: 0 <= k < i ==> calls[k] == CallMethod(targets[k], methodName)
      {
        calls := calls + [CallMethod(targets[i], methodName)];
      }
    }
  }
}
