/**
 * The automatic profile switcher of the tray application
 * (keypad-tray/src/watchdog.rs): given a snapshot of the running
 * processes, it decides whether the keypad should switch to the profile
 * of a launched program, or back to the default profile once that program
 * has exited.
 */
module Watchdog {
  import opened Keys
  import opened Models

  // ---------------------------------------------------------------------
  // Rust's `str::trim`
  // ---------------------------------------------------------------------

  /** The characters with the Unicode White_Space property, which `str::trim` strips. */
  predicate IsWhitespace(c: char) {
    ('\t' <= c <= '\r') || c == ' ' || c == '\U{85}' || c == '\U{A0}' || c == '\U{1680}'
    || ('\U{2000}' <= c <= '\U{200A}') || c == '\U{2028}' || c == '\U{2029}' || c == '\U{202F}'
    || c == '\U{205F}' || c == '\U{3000}'
  }

  predicate IsBlank(s: string) {
    forall i :: 0 <= i < |s| ==> IsWhitespace(s[i])
  }

  /** How many whitespace characters run from position `i` of `s` onwards. */
  function BlanksFrom(s: string, i: nat): (n: nat)
    requires i <= |s|
    ensures i + n <= |s|
    ensures forall k :: i <= k < i + n ==> IsWhitespace(s[k])
    ensures i + n < |s| ==> !IsWhitespace(s[i + n])
    decreases |s| - i
  {
    if i < |s| && IsWhitespace(s[i]) then 1 + BlanksFrom(s, i + 1) else 0
  }

  /** How many whitespace characters run backwards from just before position `j` of `s`. */
  function BlanksBefore(s: string, j: nat): (n: nat)
    requires j <= |s|
    ensures n <= j
    ensures forall k :: j - n <= k < j ==> IsWhitespace(s[k])
    ensures n < j ==> !IsWhitespace(s[j - n - 1])
  {
    if j > 0 && IsWhitespace(s[j - 1]) then 1 + BlanksBefore(s, j - 1) else 0
  }

  /** How many whitespace characters `s` starts with. */
  function LeadingBlanks(s: string): (n: nat)
    ensures n <= |s| && IsBlank(s[..n])
    ensures n < |s| ==> !IsWhitespace(s[n])
  {
    BlanksFrom(s, 0)
  }

  /** How many whitespace characters `s` ends with. */
  function TrailingBlanks(s: string): (n: nat)
    ensures n <= |s| && IsBlank(s[|s| - n..])
    ensures n < |s| ==> !IsWhitespace(s[|s| - n - 1])
  {
    BlanksBefore(s, |s|)
  }

  /** Drops the leading whitespace: the result is the suffix after the longest blank prefix. */
  function TrimStart(s: string): (r: string)
    ensures |r| <= |s| && r == s[|s| - |r|..]
    ensures IsBlank(s[..|s| - |r|])
    ensures |r| > 0 ==> !IsWhitespace(r[0])
  {
    s[LeadingBlanks(s)..]
  }

  /** Drops the trailing whitespace: the result is the prefix before the longest blank suffix. */
  function TrimEnd(s: string): (r: string)
    ensures |r| <= |s| && r == s[..|r|]
    ensures IsBlank(s[|r|..])
    ensures |r| > 0 ==> !IsWhitespace(r[|r| - 1])
  {
    s[..|s| - TrailingBlanks(s)]
  }

  /** `str::trim`: both ends stripped; what is left is a slice of `s` with non-blank ends. */
  function Trim(s: string): (r: string)
    ensures |s| - |TrimStart(s)| + |r| <= |s|
    ensures r == s[|s| - |TrimStart(s)|..|s| - |TrimStart(s)| + |r|]
    ensures IsBlank(s[..|s| - |TrimStart(s)|]) && IsBlank(s[|s| - |TrimStart(s)| + |r|..])
    ensures |r| > 0 ==> !IsWhitespace(r[0]) && !IsWhitespace(r[|r| - 1])
  {
    var i := LeadingBlanks(s);
    if i == |s| then
      ""
    else
      var j := |s| - TrailingBlanks(s);
      s[i..j]
  }

  /** Trimming both ends at once is trimming the start and then the end. */
  lemma TrimIsStartThenEnd(s: string)
    ensures Trim(s) == TrimEnd(TrimStart(s))
  {
    var i := LeadingBlanks(s);
    var t := TrimStart(s);
    assert t == s[i..];
    if i < |s| {
      var n := TrailingBlanks(s);
      var m := TrailingBlanks(t);
      assert m == n;
      assert t[..|t| - m] == s[i..|s| - n];
    }
  }

  /** Trimming leaves nothing exactly when the string is all whitespace (the empty string included). */
  lemma TrimEmptyIffBlank(s: string)
    ensures |Trim(s)| == 0 <==> IsBlank(s)
  {
    var t := TrimStart(s);
    if |Trim(s)| == 0 {
      assert t[0..] == t;
      assert |t| == 0;
      forall i | 0 <= i < |s|
        ensures IsWhitespace(s[i])
      {
        assert s[..|s| - |t|][i] == s[i];
      }
    } else {
      assert s[|s| - |t|] == Trim(s)[0];
    }
  }

  // ---------------------------------------------------------------------
  // Process snapshot
  // ---------------------------------------------------------------------

  /** `program_is_running`: some process of the snapshot carries the program's name. */
  predicate ProgramIsRunning(name: string, running: set<string>): (b: bool)
    ensures b <==> |set n | n in running && n == name| > 0
  {
    var named := set n | n in running && n == name;
    assert name in running ==> name in named;
    assert name !in running ==> named == {};
    name in running
  }

  // ---------------------------------------------------------------------
  // Auto profiles
  // ---------------------------------------------------------------------

  /** A profile takes part in switching when its program is set and not blank after trimming. */
  predicate Watches(p: Profile): (b: bool)
    ensures b <==> p.autoLaunchProgram.Some? && !IsBlank(p.autoLaunchProgram.value)
  {
    match p.autoLaunchProgram
    case None => false
    case Some(program) =>
      TrimEmptyIffBlank(program);
      |Trim(program)| > 0
  }

  /** The filter in `AutoSwitcher::new`: the profiles with a watched program, in their order. */
  function AutoProfiles(profiles: seq<Profile>): (autos: seq<Profile>)
    ensures |autos| <= |profiles|
    ensures forall p :: p in autos <==> p in profiles && Watches(p)
  {
    if |profiles| == 0 then []
    else if Watches(profiles[0]) then [profiles[0]] + AutoProfiles(profiles[1..])
    else AutoProfiles(profiles[1..])
  }

  /** The filter keeps the original order: it distributes over concatenation. */
  lemma {:induction false} AutoProfilesAppend(a: seq<Profile>, b: seq<Profile>)
    ensures AutoProfiles(a + b) == AutoProfiles(a) + AutoProfiles(b)
  {
    if |a| == 0 {
      assert a + b == b;
    } else {
      assert (a + b)[1..] == a[1..] + b;
      AutoProfilesAppend(a[1..], b);
    }
  }

  /** A profile whose program is set but blank (say "  ") is dropped; a named one is kept. */
  lemma AutoProfilesDropsBlank(p: Profile, q: Profile)
    requires p.autoLaunchProgram == Some("  ")
    requires q.autoLaunchProgram == Some("x")
    ensures AutoProfiles([p, q]) == [q]
  {
    TwoSpacesBlank();
    assert "x"[0] == 'x';
    WatchesVisible(q);
    DropsFirst(p, q);
  }

  lemma TwoSpacesBlank()
    ensures IsBlank("  ")
  {
    assert "  "[0] == ' ' && "  "[1] == ' ';
  }

  /** Of two profiles, an unwatched first one is dropped and a watched second one kept. */
  lemma DropsFirst(p: Profile, q: Profile)
    requires !Watches(p) && Watches(q)
    ensures AutoProfiles([p, q]) == [q]
  {
    assert [p, q][1..] == [q] && [q][1..] == [];
  }

  /**
   * The search in `next_profile`: the first profile of the list whose
   * program is running.
   */
  function FirstRunning(autos: seq<Profile>, running: set<string>): (r: Option<Profile>)
    requires forall p :: p in autos ==> p.autoLaunchProgram.Some?
    ensures r.None? <==> forall p :: p in autos ==> !ProgramIsRunning(p.autoLaunchProgram.value, running)
    ensures r.Some? ==> exists i :: 0 <= i < |autos| && autos[i] == r.value && FirstRunningAt(autos, running, i)
  {
    if |autos| == 0 then None
    else if ProgramIsRunning(autos[0].autoLaunchProgram.value, running) then
      assert FirstRunningAt(autos, running, 0);
      Some(autos[0])
    else
      var r := FirstRunning(autos[1..], running);
      if r.Some? then
        var i :| 0 <= i < |autos[1..]| && autos[1..][i] == r.value && FirstRunningAt(autos[1..], running, i);
        assert FirstRunningAt(autos, running, i + 1);
        r
      else
        assert forall p :: p in autos ==> p == autos[0] || p in autos[1..];
        r
  }

  /** Position `i` is running and no earlier position is. */
  predicate FirstRunningAt(autos: seq<Profile>, running: set<string>, i: int)
    requires forall p :: p in autos ==> p.autoLaunchProgram.Some?
    requires 0 <= i < |autos|
  {
    ProgramIsRunning(autos[i].autoLaunchProgram.value, running)
    && forall j :: 0 <= j < i ==> !ProgramIsRunning(autos[j].autoLaunchProgram.value, running)
  }

  // ---------------------------------------------------------------------
  // The switching state machine
  // ---------------------------------------------------------------------

  datatype State = Default | InProgram(profile: Profile)

  /** The profiles of the auto list all carry a program, so the unwraps in `next_profile` succeed. */
  predicate AllWatched(autos: seq<Profile>) {
    forall p :: p in autos ==> Watches(p)
  }

  /** The state the switcher keeps: in a program's profile only when that profile is on the auto list. */
  predicate StateOk(state: State, autos: seq<Profile>) {
    state.InProgram? ==> state.profile in autos
  }

  /**
   * One step of `next_profile` on a snapshot, as a value: the new state and
   * the profile to apply, if any. Leaving a program resets to Default and
   * scans the same snapshot again; with nothing else running the default
   * profile is applied.
   */
  function Next(state: State, fallback: Profile, autos: seq<Profile>, running: set<string>): (n: (State, Option<Profile>))
    requires AllWatched(autos) && StateOk(state, autos)
    ensures StateOk(n.0, autos)
    ensures n.0 == state <==> n.1.None?
    decreases state.InProgram?
  {
    match state
    case Default =>
      var found := FirstRunning(autos, running);
      if found.Some? then (InProgram(found.value), found) else (Default, None)
    case InProgram(p) =>
      if !ProgramIsRunning(p.autoLaunchProgram.value, running) then
        var (s, r) := Next(Default, fallback, autos, running);
        (s, if r.Some? then r else Some(fallback))
      else
        (state, None)
  }

  /** From Default the step switches to the first running auto profile, or stays put with nothing to apply. */
  lemma NextFromDefault(fallback: Profile, autos: seq<Profile>, running: set<string>)
    requires AllWatched(autos)
    ensures var (s, r) := Next(Default, fallback, autos, running);
      && (r.None? <==> forall p :: p in autos ==> !ProgramIsRunning(p.autoLaunchProgram.value, running))
      && (r.None? ==> s == Default)
      && (r.Some? ==> s == InProgram(r.value)
                      && exists i :: 0 <= i < |autos| && autos[i] == r.value && FirstRunningAt(autos, running, i))
  {
  }

  /** While the program of the current profile runs, nothing changes and nothing is applied. */
  lemma NextWhileRunning(p: Profile, fallback: Profile, autos: seq<Profile>, running: set<string>)
    requires AllWatched(autos) && p in autos
    requires ProgramIsRunning(p.autoLaunchProgram.value, running)
    ensures Next(InProgram(p), fallback, autos, running) == (InProgram(p), None)
  {
  }

  /**
   * Once the program of the current profile has exited, the step always
   * applies something: another running profile, or the default one.
   */
  lemma NextAfterExit(p: Profile, fallback: Profile, autos: seq<Profile>, running: set<string>)
    requires AllWatched(autos) && p in autos
    requires !ProgramIsRunning(p.autoLaunchProgram.value, running)
    ensures var (s, r) := Next(InProgram(p), fallback, autos, running);
      && r.Some?
      && (s == Default <==> r == Some(fallback) && FirstRunning(autos, running).None?)
      && (s.InProgram? ==> r == Some(s.profile) && FirstRunning(autos, running) == r)
  {
    var (s, r) := Next(Default, fallback, autos, running);
    NextFromDefault(fallback, autos, running);
  }

  /**
   * The switcher never applies twice in a row on the same snapshot: the
   * step after any step on an unchanged process list applies nothing.
   */
  lemma {:induction false} NextSettles(state: State, fallback: Profile, autos: seq<Profile>, running: set<string>)
    requires AllWatched(autos) && StateOk(state, autos)
    ensures var (s, _) := Next(state, fallback, autos, running);
      StateOk(s, autos) && Next(s, fallback, autos, running) == (s, None)
  {
    var (s, r) := Next(state, fallback, autos, running);
    NextFromDefault(fallback, autos, running);
    if s.InProgram? {
      if state.InProgram? && ProgramIsRunning(state.profile.autoLaunchProgram.value, running) {
        NextWhileRunning(state.profile, fallback, autos, running);
      } else {
        assert FirstRunning(autos, running) == Some(s.profile);
        var i :| 0 <= i < |autos| && autos[i] == s.profile && FirstRunningAt(autos, running, i);
        NextWhileRunning(s.profile, fallback, autos, running);
      }
    }
  }

  /** A profile whose program starts with a visible character is watched. */
  lemma WatchesVisible(p: Profile)
    requires p.autoLaunchProgram.Some? && |p.autoLaunchProgram.value| > 0
    requires !IsWhitespace(p.autoLaunchProgram.value[0])
    ensures Watches(p)
  {
    TrimEmptyIffBlank(p.autoLaunchProgram.value);
  }

  /** Two profiles watching "foo.exe" and "bar.exe" both stay on the auto list, in order. */
  lemma ScenarioAutos(a: Profile, b: Profile)
    requires a.autoLaunchProgram == Some("foo.exe") && b.autoLaunchProgram == Some("bar.exe")
    ensures AutoProfiles([a, b]) == [a, b] && AllWatched([a, b]) && a != b
    ensures "foo.exe" != "bar.exe"
  {
    WatchesVisible(a);
    WatchesVisible(b);
    assert AutoProfiles([b]) == [b] by {
      assert [b][1..] == [];
    }
    assert [a, b][1..] == [b];
    assert "foo.exe"[0] != "bar.exe"[0];
  }

  /**
   * A run of the switcher with a default profile and two profiles watching
   * "foo.exe" and "bar.exe": idle while neither runs, one switch when
   * "foo.exe" starts, idle while it keeps running, straight to the second
   * profile when "foo.exe" exits while "bar.exe" runs (no default in
   * between), and back to the default once nothing runs.
   */
  lemma SwitcherScenario(fallback: Profile, a: Profile, b: Profile)
    requires a.autoLaunchProgram == Some("foo.exe") && b.autoLaunchProgram == Some("bar.exe")
    ensures AutoProfiles([a, b]) == [a, b]
    ensures Next(Default, fallback, [a, b], {}) == (Default, None)
    ensures Next(Default, fallback, [a, b], {"foo.exe"}) == (InProgram(a), Some(a))
    ensures Next(InProgram(a), fallback, [a, b], {"foo.exe", "bar.exe"}) == (InProgram(a), None)
    ensures Next(InProgram(a), fallback, [a, b], {"bar.exe"}) == (InProgram(b), Some(b))
    ensures Next(InProgram(b), fallback, [a, b], {}) == (Default, Some(fallback))
  {
    ScenarioAutos(a, b);
    ScenarioStart(fallback, a, b);
    ScenarioLeave(fallback, a, b);
  }

  /** The first three ticks of SwitcherScenario: idle, switch to A, idle while "foo.exe" runs. */
  lemma ScenarioStart(fallback: Profile, a: Profile, b: Profile)
    requires a.autoLaunchProgram == Some("foo.exe") && b.autoLaunchProgram == Some("bar.exe")
    requires AllWatched([a, b]) && "foo.exe" != "bar.exe"
    ensures Next(Default, fallback, [a, b], {}) == (Default, None)
    ensures Next(Default, fallback, [a, b], {"foo.exe"}) == (InProgram(a), Some(a))
    ensures Next(InProgram(a), fallback, [a, b], {"foo.exe", "bar.exe"}) == (InProgram(a), None)
  {
    var autos := [a, b];
    assert autos[1..] == [b] && autos[1..][1..] == [];
    assert !ProgramIsRunning("foo.exe", {}) && !ProgramIsRunning("bar.exe", {});
    assert ProgramIsRunning("foo.exe", {"foo.exe"});
    assert ProgramIsRunning("foo.exe", {"foo.exe", "bar.exe"});
    assert FirstRunning(autos, {}) == None;
    assert FirstRunning(autos, {"foo.exe"}) == Some(a);
  }

  /** The last two ticks of SwitcherScenario: straight from A to B, then back to the default. */
  lemma ScenarioLeave(fallback: Profile, a: Profile, b: Profile)
    requires a.autoLaunchProgram == Some("foo.exe") && b.autoLaunchProgram == Some("bar.exe")
    requires AllWatched([a, b]) && "foo.exe" != "bar.exe"
    ensures Next(InProgram(a), fallback, [a, b], {"bar.exe"}) == (InProgram(b), Some(b))
    ensures Next(InProgram(b), fallback, [a, b], {}) == (Default, Some(fallback))
  {
    var autos := [a, b];
    assert autos[1..] == [b] && autos[1..][1..] == [];
    assert !ProgramIsRunning("foo.exe", {}) && !ProgramIsRunning("bar.exe", {});
    assert !ProgramIsRunning("foo.exe", {"bar.exe"}) && ProgramIsRunning("bar.exe", {"bar.exe"});
    assert FirstRunning(autos, {}) == None;
    assert FirstRunning(autos, {"bar.exe"}) == Some(b);
  }

  // ---------------------------------------------------------------------
  // The switcher object
  // ---------------------------------------------------------------------

  class AutoSwitcher {
    const fallback: Profile
    const autoProfiles: seq<Profile>
    var state: State

    ghost predicate Valid()
      reads this
    {
      AllWatched(autoProfiles) && StateOk(state, autoProfiles)
    }

    constructor (fallback: Profile, others: seq<Profile>)
      ensures Valid()
      ensures this.fallback == fallback && autoProfiles == AutoProfiles(others) && state == Default
    {
      this.fallback := fallback;
      autoProfiles := AutoProfiles(others);
      state := Default;
    }

    /**
     * `AutoSwitcher::new`: nothing without profiles; otherwise the first
     * profile is the default and the watched ones among the rest are the
     * auto list, starting in the Default state.
     */
    static method New(profiles: seq<Profile>) returns (s: AutoSwitcher?)
      ensures s == null <==> |profiles| == 0
      ensures s != null ==> fresh(s) && s.Valid()
      ensures s != null ==> s.fallback == profiles[0] && s.autoProfiles == AutoProfiles(profiles[1..])
      ensures s != null ==> s.state == Default
    {
      if |profiles| == 0 {
        return null;
      }
      s := new AutoSwitcher(profiles[0], profiles[1..]);
    }

    /**
     * `next_profile`: one step of the state machine on a snapshot of the
     * running processes. The recursive call happens only from a program's
     * profile and always lands in the Default branch, which does not recurse.
     */
    method NextProfile(running: set<string>) returns (r: Option<Profile>)
      requires Valid()
      modifies this
      ensures Valid()
      ensures (state, r) == Next(old(state), fallback, autoProfiles, running)
      decreases state.InProgram?
    {
      match state
      case Default =>
        r := FirstRunning(autoProfiles, running);
        if r.Some? {
          state := InProgram(r.value);
        }
      case InProgram(p) =>
        if !ProgramIsRunning(p.autoLaunchProgram.value, running) {
          state := Default;
          r := NextProfile(running);
          if r.None? {
            r := Some(fallback);
          }
        } else {
          r := None;
        }
    }
  }
}
