/** One programmable button's configuration: its function name and the parameter that
    goes with it, and the widget that edits them. */
module Buttons {
  import opened Wrappers
  import Macros

  const DefaultFunction: string := "Left Click"

  /** The entries of the function selector, in display order. */
  const Functions: seq<string> := [
    "Left Click", "Right Click", "Middle Click",
    "Scroll Up", "Scroll Down", "DPI Up", "DPI Down",
    "Keystroke", "Macro", "Application", "Disabled"
  ]

  /** The `{'function': ..., 'parameter': ...}` dictionary a widget keeps. */
  datatype ButtonConfig = ButtonConfig(func: string, parameter: string)

  const DefaultConfig: ButtonConfig := ButtonConfig(DefaultFunction, "")

  /** A button entry as read back from a profile file: either key may be missing. */
  datatype ConfigEntry = ConfigEntry(func: Option<string>, parameter: Option<string>)

  /** What `set_config` takes from an entry, with its documented defaults. */
  function FromEntry(entry: ConfigEntry): (c: ButtonConfig)
    ensures entry.func.None? ==> c.func == DefaultFunction
    ensures entry.parameter.None? ==> c.parameter == ""
  {
    ButtonConfig(entry.func.GetOr(DefaultFunction), entry.parameter.GetOr(""))
  }

  /** The entry a saved configuration becomes: both keys present. */
  function ToEntry(c: ButtonConfig): (entry: ConfigEntry)
    ensures FromEntry(entry) == c
  {
    ConfigEntry(Some(c.func), Some(c.parameter))
  }

  /** The functions that take a parameter: the parameter input is shown for these. */
  predicate ShowsParameterInput(func: string) {
    func in {"Keystroke", "Application", "Macro"}
  }

  /** Only a macro is recorded with the record button. */
  predicate ShowsMacroButton(func: string) {
    func == "Macro"
  }

  /** Whenever the record button is shown, so is the parameter input it fills. */
  lemma MacroButtonNeedsParameterInput(func: string)
    requires ShowsMacroButton(func)
    ensures ShowsParameterInput(func)
  {
  }

  /** Of the selector's entries, exactly Keystroke, Macro and Application take a parameter. */
  lemma ParameterFunctions()
    ensures forall i :: 0 <= i < |Functions| ==> (ShowsParameterInput(Functions[i]) <==> i in {7, 8, 9})
  {
  }

  /** The hint shown in an empty parameter input after the function is set to `func`;
      functions without a parameter keep the previous hint. */
  function Placeholder(func: string, previous: string): (hint: string)
    ensures !ShowsParameterInput(func) ==> hint == previous
    ensures ShowsParameterInput(func) ==>
      hint in {"Enter key combination (e.g., Ctrl+C)", "Enter application path", "Macro sequence"}
  {
    if func == "Keystroke" then "Enter key combination (e.g., Ctrl+C)"
    else if func == "Application" then "Enter application path"
    else if func == "Macro" then "Macro sequence"
    else previous
  }

  /** A configuration counts as configured when it differs from the default: a function
      other than Left Click, or a non-empty parameter. */
  predicate IsConfigured(c: ButtonConfig) {
    c.func != DefaultFunction || c.parameter != ""
  }

  lemma ConfiguredIffNotDefault(c: ButtonConfig)
    ensures IsConfigured(c) <==> c != DefaultConfig
  {
  }

  class ButtonConfigWidget {
    const buttonNumber: nat
    /** `config['function']`, mirrored by the function selector. */
    var func: string
    /** `config['parameter']`, mirrored by the parameter input. */
    var parameter: string
    var parameterInputVisible: bool
    var macroButtonVisible: bool
    var placeholder: string

    /** A new widget holds the default configuration. The parameter input starts shown
        (no function change has hidden it yet) and the record button hidden. */
    constructor (buttonNumber: nat)
      ensures this.buttonNumber == buttonNumber
      ensures GetConfig() == DefaultConfig
      ensures parameterInputVisible && !macroButtonVisible
      ensures placeholder == "Enter parameter..."
    {
      this.buttonNumber := buttonNumber;
      func := DefaultFunction;
      parameter := "";
      parameterInputVisible := true;
      macroButtonVisible := false;
      placeholder := "Enter parameter...";
    }

    /** `get_config`: a copy of the configuration. */
    function GetConfig(): (c: ButtonConfig)
      reads this
      ensures c.func == func && c.parameter == parameter
    {
      ButtonConfig(func, parameter)
    }

    /** The two visibility flags agree with the function. */
    predicate VisibilityFollowsFunction()
      reads this
    {
      parameterInputVisible == ShowsParameterInput(func) && macroButtonVisible == ShowsMacroButton(func)
    }

    /** Choosing a function sets it, keeps a possibly stale parameter, and shows the
        parameter input and the record button as the function needs them. */
    method UpdateFunction(f: string)
      modifies this
      ensures func == f && parameter == old(parameter)
      ensures VisibilityFollowsFunction()
      ensures placeholder == Placeholder(f, old(placeholder))
    {
      func := f;
      if f == "Keystroke" || f == "Application" {
        parameterInputVisible := true;
        macroButtonVisible := false;
        if f == "Keystroke" {
          placeholder := "Enter key combination (e.g., Ctrl+C)";
        } else {
          placeholder := "Enter application path";
        }
      } else if f == "Macro" {
        parameterInputVisible := true;
        macroButtonVisible := true;
        placeholder := "Macro sequence";
      } else {
        parameterInputVisible := false;
        macroButtonVisible := false;
      }
    }

    /** Editing the parameter changes the parameter and nothing else. */
    method UpdateParameter(text: string)
      modifies this
      ensures parameter == text && func == old(func)
      ensures parameterInputVisible == old(parameterInputVisible)
      ensures macroButtonVisible == old(macroButtonVisible) && placeholder == old(placeholder)
    {
      parameter := text;
    }

    /** After the recorder `dialog` has been run: an accepted recording replaces the
        parameter with the joined key names, a cancelled one changes nothing. */
    method RecordMacro(dialog: Macros.MacroRecorderDialog, accepted: bool)
      modifies this
      ensures parameter == (if accepted then dialog.GetMacro() else old(parameter))
      ensures func == old(func) && placeholder == old(placeholder)
      ensures parameterInputVisible == old(parameterInputVisible)
      ensures macroButtonVisible == old(macroButtonVisible)
    {
      if accepted {
        var macro := dialog.GetMacro();
        UpdateParameter(macro);
      }
    }

    /** `set_config`: the entry's function and parameter, defaulting to Left Click and the
        empty parameter, as if both were chosen in the widget. */
    method SetConfig(entry: ConfigEntry)
      modifies this
      ensures GetConfig() == FromEntry(entry)
      ensures VisibilityFollowsFunction()
      ensures placeholder == Placeholder(func, old(placeholder))
    {
      UpdateFunction(entry.func.GetOr(DefaultFunction));
      UpdateParameter(entry.parameter.GetOr(""));
    }
  }
}
