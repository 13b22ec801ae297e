/**
 * The profile record of the tray application (keypad-tray/src/models.rs):
 * a named set of six button combos, optionally tied to a program whose
 * launch switches the keypad to it.
 */
module Models {
  import opened Keys

  /** `[KeyCombo; 6]`: the combo of each of the six buttons, by position. */
  type ButtonCombos = s: seq<KeyCombo> | |s| == 6
    witness [DefaultCombo(), DefaultCombo(), DefaultCombo(), DefaultCombo(), DefaultCombo(), DefaultCombo()]

  datatype Profile = Profile(name: string, combos: ButtonCombos, autoLaunchProgram: Option<string>)

  /** `Display for Profile`: the name, then the program in parentheses when there is one. */
  function ProfileDisplay(p: Profile): (s: string)
    ensures |p.name| <= |s| && s[..|p.name|] == p.name
    ensures p.autoLaunchProgram.None? <==> s == p.name
    ensures p.autoLaunchProgram.Some? ==> s[|p.name|..] == " (" + p.autoLaunchProgram.value + ")"
  {
    p.name + (if p.autoLaunchProgram.Some? then " (" + p.autoLaunchProgram.value + ")" else "")
  }

  /**
   * The rendering does not tell a program from a name ending in a
   * parenthesised word: "a (b)" without a program renders like "a" with
   * the program "b". An empty program still shows its parentheses.
   */
  lemma ProfileDisplayAmbiguous(combos: ButtonCombos)
    ensures ProfileDisplay(Profile("a (b)", combos, None)) == ProfileDisplay(Profile("a", combos, Some("b")))
    ensures ProfileDisplay(Profile("a", combos, Some(""))) == "a ()"
  {
  }

  /** `Profile::default()`: no name, no program, and the default combo on every button. */
  function DefaultProfile(): (p: Profile)
    ensures p.name == "" && p.autoLaunchProgram == None
    ensures forall i :: 0 <= i < 6 ==> p.combos[i] == DefaultCombo()
    ensures forall i :: 0 <= i < 6 ==> p.combos[i].one == PlainPress(A) && p.combos[i].two == None
  {
    var c := KeyCombo(PlainPress(A), None);
    Profile("", [c, c, c, c, c, c], None)
  }

  /** The default profile renders as the empty string. */
  lemma DefaultProfileDisplay()
    ensures ProfileDisplay(DefaultProfile()) == ""
  {
  }
}
