# Button drawer for Unity: decision and text logic

This project models the core of `ButtonDrawer`, the Unity Editor property drawer for the `[Button]` attribute. When a serialized field has this attribute, the Inspector shows a button instead of the field. Clicking the button calls a method, named by the attribute, on every selected object. The model covers four parts of the drawer:

- **Error classification.** `IsErrorState` checks the method name and the selected objects and produces one of four error messages, or no error. It is a method with a counting loop, proved against the specification function `Verdict`.
- **State choice.** `GetState` chooses `Error`, then `Multi`, then `Normal`, in that priority order.
- **Content.** `ButtonContent` builds the button's text and its optional tooltip from the attribute, the state and the error message.
- **Click dispatch.** The part of `OnGUI` that runs on a click calls `CallMethod` on each target in turn, unless the button is in the error state.

The model replaces Unity with plain values:

- The attribute is a record of the label, the tooltip and the method name. The tooltip and the method name may be null; `Option<string>` models that, with `None` for null.
- A selected object (`Target`) carries its name and the multiset of the method names the lookup can see, with one entry per overload. These are its public instance methods, inherited ones included, and the public static methods declared on its own type. The lookup flags do not include `FlattenHierarchy`, so inherited static methods are not visible. The reflection lookup `GetMethod` succeeds exactly when the name occurs once. A missing name returns null. A null or overloaded name makes `Type.GetMethod` throw, and the drawer catches the exception and returns null.
- `CallMethod` returns an outcome value instead of acting. The outcome is either the invocation of the target or the console message that would be logged.
- The `System.String` behaviour the drawer relies on is in module `DotNetString`: `String.IsNullOrEmpty`, `Char.IsWhiteSpace` and `String.Trim`. `Trim` follows the .NET Framework 4 behaviour, which trims exactly the characters for which `Char.IsWhiteSpace` holds, U+180E included. .NET Core 3.0 and later use Unicode 6.3 or later data, where U+180E is no longer white space. The .NET Framework 3.5 profile of older Unity Mono runtimes uses a different set: it also trims U+200B and U+FEFF, and it does not trim U+180E, U+202F or U+205F.

The main result is `ClickInvokesEachTargetOnce`, and the same property appears in `OnGUI`'s postcondition. It says that a click on a button outside the error state invokes the method on every selected object exactly once, in selection order. Such a click never reaches the "method not found" branch of `CallMethod`. Any other click invokes nothing.

## Model

| member | source | states |
|---|---|---|
| DotNetString.Trim | ButtonEditor/ButtonDrawer.cs:46 | the result is the slice of the label after its leading white space; everything cut from either end is white space; the result neither starts nor ends with white space |
| DotNetString.TrimEmptyIffAllWhiteSpace | ButtonEditor/ButtonDrawer.cs:46-48 | trimming yields "" exactly when every character of the label is white space |
| DotNetString.TrimIdempotent | ButtonEditor/ButtonDrawer.cs:46 | trimming twice gives the same string as trimming once |
| DotNetString.TrimOfTrimmed | ButtonEditor/ButtonDrawer.cs:46 | a non-empty string with no white space at either end is unchanged by trimming |
| ButtonDrawer.BaseText | ButtonEditor/ButtonDrawer.cs:46-48 | the base text is never empty: it is the trimmed label, or "DO!" when the trimmed label is empty; it has no white space at either end |
| ButtonDrawer.BaseTextIsTrimmed | ButtonEditor/ButtonDrawer.cs:46-48 | the base text is a fixed point of trimming |
| ButtonDrawer.ErrorTooltip | ButtonEditor/ButtonDrawer.cs:53 | the error line is "[ERROR: ", then the message unchanged, then "]" |
| ButtonDrawer.ButtonContent | ButtonEditor/ButtonDrawer.cs:45-72 | Error: the text is "[ERROR] " plus the base text, and the tooltip is the error line, followed by "\n" and the author's tooltip only when that tooltip is non-empty. Multi: the text is the base text, and the tooltip is "[Multiple objects selected]", or the author's tooltip + "\n" + that line. Normal: the text is the base text, and a tooltip is attached exactly when the author's tooltip is non-empty. No state ever attaches an empty tooltip |
| ButtonDrawer.ContentRoundTrip | ButtonEditor/ButtonDrawer.cs:49-66 | in every state, the author's tooltip (none when null or empty) and the base text can be recovered from the displayed content, so the composition loses nothing |
| ButtonDrawer.TooltipAbsentOnlyWhenNormal | ButtonEditor/ButtonDrawer.cs:52-71 | a button without a tooltip is in the Normal state and its attribute's tooltip is null or empty |
| ButtonDrawer.GetMethod | ButtonEditor/ButtonDrawer.cs:138-142 | the lookup succeeds exactly for a non-null name listed once among the object's visible public methods; a missing name yields null, and so does a null or overloaded name, because the exception is swallowed |
| ButtonDrawer.NotFoundMessage | ButtonEditor/ButtonDrawer.cs:151-155 | the console message starts with "Button on <", the object's name and "> object:" plus a newline; it ends with "<", the method name (empty for null) and "> method"; its length is fixed by the two names |
| ButtonDrawer.CallMethod | ButtonEditor/ButtonDrawer.cs:138-157 | the target is invoked exactly when the lookup finds the method; otherwise the "doesn't have a <method> method" message is logged |
| ButtonDrawer.CountSupporting | ButtonEditor/ButtonDrawer.cs:178-183 | the count of supporting targets is at most the number of targets; it is 0 exactly when no target has the method, and it equals the number of targets exactly when all of them do |
| ButtonDrawer.Verdict | ButtonEditor/ButtonDrawer.cs:164-195 | there is no error exactly when the method name is non-empty, the selection is non-null and non-empty, and every target has the method; the message is "" exactly when there is no error |
| ButtonDrawer.NoMethodWhateverTheTargets | ButtonEditor/ButtonDrawer.cs:168-171 | a null or empty method name gives "No method provided for button click", whatever the targets are |
| ButtonDrawer.NoObjectsBeforeLookup | ButtonEditor/ButtonDrawer.cs:173-176 | with a method name, a null or empty selection gives "No objects selected" |
| ButtonDrawer.VerdictBySupport | ButtonEditor/ButtonDrawer.cs:178-194 | with a method name and a selection: no supporting target gives "Provided method doesn't exist…"; some but not all gives "Can't perform action…"; all of them give no error and "" |
| ButtonDrawer.IsErrorState | ButtonEditor/ButtonDrawer.cs:164-195 | the loop's flag and message equal the verdict; it returns false exactly when a method is named, something is selected and every selected target has it |
| ButtonDrawer.StateOf | ButtonEditor/ButtonDrawer.cs:205-211 | the state is Error exactly when the verdict is an error, whatever the selection size; it is Multi exactly when there is no error and the editor is editing several objects or there is more than one target |
| ButtonDrawer.NotErrorIffAllSupport | ButtonEditor/ButtonDrawer.cs:178-211 | the button is outside the Error state exactly when the method name is non-empty, something is selected and every selected object has the method |
| ButtonDrawer.GetState | ButtonEditor/ButtonDrawer.cs:197-212 | the targets and their count come from the serialized object; isMulti follows the multi-editing flag or the count; the error flag and message are the verdict; Error takes priority over Multi, and Multi over Normal |
| ButtonDrawer.ClickCalls | ButtonEditor/ButtonDrawer.cs:256-260 | nothing is called unless the button is pressed and not in error; otherwise the k-th call is CallMethod on the k-th target, one per target in index order |
| ButtonDrawer.ClickInvokesEachTargetOnce | ButtonEditor/ButtonDrawer.cs:256-260 | a click outside the Error state invokes exactly the selected objects, each once and in selection order, and logs nothing; any other click invokes nothing |
| ButtonDrawer.OnGUI | ButtonEditor/ButtonDrawer.cs:227-266 | the content is built from the chosen state and the verdict's message; the button is disabled exactly in the Error state and tinted exactly under multi-selection; the dispatch loop's calls are ClickCalls, and each is the invocation of the target at the same index |

## Left out

- Layout is not modelled: `ButtonWidth`, `ButtonRectAndStyle`, `ButtonRect`, the cached `_height` and `GetPropertyHeight`. They are floating-point arithmetic over `GUIStyle.CalcSize`, `GUIStyle.CalcHeight` and `EditorGUIUtility.currentViewWidth`, which are Unity internals.
- The two-argument `GetState` overload is not modelled separately. It only calls the full `GetState` and discards its extra outputs, and only `GetPropertyHeight` uses it.
- Drawing is not modelled: `GUI.Button`, `EditorGUI.DisabledScope`, and saving and restoring `GUI.backgroundColor`. `OnGUI` takes the pressed flag as a parameter. It reports the disabled and tinted flags instead of drawing, and the colour value itself (1.0, 0.7, 0.4) is not modelled.
- `Debug.LogError` is not modelled as an action. `CallMethod` returns the message that would be logged.
- Reflection is reduced to a count of method names per target. The model does not cover parameter lists, which make `MethodInfo.Invoke(target, null)` throw for a method that takes arguments. It does not cover exceptions raised by the invoked method, or the effects of that method.
- A null label makes `String.Trim` throw a null-reference exception. The model's label is always a string, so that exception is not modelled.
- Selected objects are assumed to be non-null references. A null target makes `target.GetType()` throw. A destroyed Unity object is still a managed object, so its lookup and count proceed as modelled. Such an object fails later, when `target.name` is read for the not-found message or inside the invoked method, and those failures are not modelled.
- The `ButtonAttribute` and `Button` classes under `Button/`, and the example components, are not part of this model. They only store constructor arguments or log to the console, and the drawer reads a `Method` field that those attribute classes do not declare.
