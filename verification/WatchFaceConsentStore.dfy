/** The one-shot consent history shared by every watch-face controller, its compare-and-set,
    and what that guarantees for any interleaving of controllers, failed commits and restarts. */
module WatchFaceConsentHistory {
  import opened Wrappers

  datatype Consent = Eligible | PermissionPending | PermissionDeclined | ActivationAttempted

  function NameOf(c: Consent): string {
    match c
    case Eligible => "Eligible"
    case PermissionPending => "PermissionPending"
    case PermissionDeclined => "PermissionDeclined"
    case ActivationAttempted => "ActivationAttempted"
  }

  /** Nothing saved is a fresh start; an unknown name counts as a consumed attempt. */
  function Meaning(saved: Option<string>): Consent {
    if saved.None? || saved.value == NameOf(Eligible) then Eligible
    else if saved.value == NameOf(PermissionPending) then PermissionPending
    else if saved.value == NameOf(PermissionDeclined) then PermissionDeclined
    else ActivationAttempted
  }

  lemma NamesRead(c: Consent)
    ensures Meaning(Some(NameOf(c))) == c
  {
    assert NameOf(Eligible)[0] == 'E' && NameOf(PermissionPending)[10] == 'P' && NameOf(PermissionDeclined)[10] == 'D';
    assert NameOf(ActivationAttempted)[0] == 'A';
  }

  /** What a saved name stands for: nothing saved is a fresh start, and every name that is not
      one of the first three counts as a consumed attempt. */
  lemma SavedNames(name: string)
    ensures Meaning(None) == Eligible
    ensures Meaning(Some(name)) == if name == "Eligible" then Eligible
                                   else if name == "PermissionPending" then PermissionPending
                                   else if name == "PermissionDeclined" then PermissionDeclined
                                   else ActivationAttempted
  {}

  // ---- The preferences file ----

  /** `memory` is what a read sees; `file` is what the next process starts from. */
  datatype Saved = Saved(memory: Option<string>, file: Option<string>)

  /** A refused commit may still have changed either copy. */
  datatype Commit = Kept | Refused(memory: bool, file: bool)

  function Claim(s: Saved, expected: Consent, consent: Consent, commit: Commit): (Saved, bool) {
    if Meaning(s.memory) != expected then (s, false)
    else
      var name := Some(NameOf(consent));
      (Saved(if commit.Kept? || commit.memory then name else s.memory, if commit.Kept? || commit.file then name else s.file),
       commit.Kept?)
  }

  class Preferences {
    var memory: Option<string>
    var file: Option<string>
    var commits: nat
    const outcomes: nat -> Commit

    ghost function Now(): Saved reads this { Saved(memory, file) }

    constructor (saved: Option<string>, outcomes: nat -> Commit)
      ensures Now() == Saved(saved, saved) && commits == 0
    {
      memory, file, commits := saved, saved, 0;
      this.outcomes := outcomes;
    }

    method PutHistory(name: string) returns (kept: bool)
      modifies this
      ensures kept == outcomes(old(commits)).Kept?
      ensures commits == old(commits) + 1
      ensures var o := outcomes(old(commits));
        Now() == Saved(if o.Kept? || o.memory then Some(name) else old(memory), if o.Kept? || o.file then Some(name) else old(file))
    {
      var outcome := outcomes(commits);
      commits := commits + 1;
      if outcome.Kept? || outcome.memory { memory := Some(name); }
      if outcome.Kept? || outcome.file { file := Some(name); }
      kept := outcome.Kept?;
    }

    /** The next process starts from the file. */
    method Restart()
      modifies this`memory
      ensures Now() == Saved(old(file), old(file))
    {
      memory := file;
    }
  }

  /** Each method body runs under the lock all stores of a process share. */
  class WatchFaceConsentStore {
    const preferences: Preferences

    constructor (preferences: Preferences)
      ensures this.preferences == preferences
    {
      this.preferences := preferences;
    }

    method Read() returns (c: Consent)
      ensures c == Meaning(preferences.memory)
    {
      var saved := preferences.memory;
      if saved.None? { return Eligible; }
      var entries := [Eligible, PermissionPending, PermissionDeclined, ActivationAttempted];
      for i := 0 to |entries|
        invariant forall k :: 0 <= k < i ==> NameOf(entries[k]) != saved.value
      {
        if NameOf(entries[i]) == saved.value {
          NamesRead(entries[i]);
          return entries[i];
        }
      }
      assert saved.value != NameOf(entries[0]) && saved.value != NameOf(entries[1]) && saved.value != NameOf(entries[2]);
      c := ActivationAttempted;
    }

    method CompareAndSet(expected: Consent, consent: Consent) returns (won: bool)
      modifies preferences
      ensures var commit := preferences.outcomes(old(preferences.commits));
        (preferences.Now(), won) == Claim(old(preferences.Now()), expected, consent, commit)
      ensures won ==> Meaning(preferences.memory) == Meaning(preferences.file) == consent
      ensures Meaning(old(preferences.memory)) != expected ==>
        !won && preferences.memory == old(preferences.memory) && preferences.file == old(preferences.file)
      ensures Meaning(old(preferences.memory)) == expected ==>
        var o := preferences.outcomes(old(preferences.commits));
        && won == o.Kept?
        && (if o.Kept? || o.memory then Meaning(preferences.memory) == consent else preferences.memory == old(preferences.memory))
        && (if o.Kept? || o.file then Meaning(preferences.file) == consent else preferences.file == old(preferences.file))
    {
      NamesRead(consent);
      var current := Read();
      if current != expected { return false; }
      won := preferences.PutHistory(NameOf(consent));
    }
  }

  // ---- Many controllers, one history ----

  /** The four claims the controllers make. */
  predicate IsClaim(expected: Consent, consent: Consent) {
    || (expected == Eligible && (consent == ActivationAttempted || consent == PermissionPending))
    || (expected == PermissionPending && (consent == ActivationAttempted || consent == PermissionDeclined))
  }

  /** One atomic step of one controller, or the end of the process. Another process may start
      from what the file holds. */
  datatype Step =
    | Claims(controller: nat, expected: Consent, consent: Consent, commit: Commit)
    | Activates(controller: nat)
    | Launches(controller: nat)
    | Ends(controller: nat)   // its operation is over: unused winnings lapse
    | Restarts

  /** `mayActivate` and `mayLaunch` hold the controllers whose operation has won the claim and
      not yet used it; the counts run over all processes. */
  datatype Shared = Shared(saved: Saved, mayActivate: multiset<nat>, mayLaunch: multiset<nat>,
                           attempts: nat, prompts: nat, activations: nat, launches: nat)

  /** A controller acts only on a claim its own operation has won. */
  predicate Enabled(s: Shared, e: Step) {
    match e
    case Claims(_, expected, consent, _) => IsClaim(expected, consent)
    case Activates(c) => c in s.mayActivate
    case Launches(c) => c in s.mayLaunch
    case Ends(_) => true
    case Restarts => true
  }

  function After(s: Shared, e: Step): Shared {
    match e
    case Claims(c, expected, consent, commit) =>
      var (saved, won) := Claim(s.saved, expected, consent, commit);
      var next := s.(saved := saved);
      if won && consent == ActivationAttempted then next.(attempts := s.attempts + 1, mayActivate := s.mayActivate + multiset{c})
      else if won && consent == PermissionPending then next.(prompts := s.prompts + 1, mayLaunch := s.mayLaunch + multiset{c})
      else next
    case Activates(c) => s.(mayActivate := s.mayActivate - multiset{c}, activations := s.activations + 1)
    case Launches(c) => s.(mayLaunch := s.mayLaunch - multiset{c}, launches := s.launches + 1)
    case Ends(c) => s.(mayActivate := s.mayActivate[c := 0], mayLaunch := s.mayLaunch[c := 0])
    case Restarts => s.(saved := Saved(s.saved.file, s.saved.file), mayActivate := multiset{}, mayLaunch := multiset{})
  }

  function Run(s: Shared, steps: seq<Step>): Shared
    decreases |steps|
  {
    if steps == [] then s else Run(After(s, steps[0]), steps[1..])
  }

  predicate Permitted(s: Shared, steps: seq<Step>)
    decreases |steps|
  {
    steps == [] || (Enabled(s, steps[0]) && Permitted(After(s, steps[0]), steps[1..]))
  }

  /** Nothing done yet, whatever the two copies hold. */
  function From(saved: Saved): Shared { Shared(saved, multiset{}, multiset{}, 0, 0, 0, 0) }

  /** Whatever an earlier version left in the file. */
  function Start(saved: Option<string>): Shared { From(Saved(saved, saved)) }

  predicate Settled(c: Consent) { c == ActivationAttempted || c == PermissionDeclined }

  /** A won attempt settles both copies for good; a won prompt leaves neither eligible. */
  predicate Sound(s: Shared) {
    && |s.mayActivate| + s.activations <= s.attempts <= 1
    && |s.mayLaunch| + s.launches <= s.prompts <= 1
    && (s.attempts == 1 ==> Meaning(s.saved.memory) == Meaning(s.saved.file) == ActivationAttempted)
    && (s.prompts == 1 ==> Meaning(s.saved.memory) != Eligible && Meaning(s.saved.file) != Eligible)
  }

  lemma StepKeepsSound(s: Shared, e: Step)
    requires Sound(s) && Enabled(s, e)
    ensures Sound(After(s, e))
  {
    match e
    case Claims(c, expected, consent, commit) => ClaimKeepsSound(s, c, expected, consent, commit);
    case Activates(c) => Fewer(s.mayActivate, c);
    case Launches(c) => Fewer(s.mayLaunch, c);
    case Ends(c) =>
      Fewer(s.mayActivate, c);
      Fewer(s.mayLaunch, c);
    case Restarts =>
  }

  lemma Fewer(m: multiset<nat>, c: nat)
    ensures |m[c := 0]| <= |m| && (c in m ==> |m - multiset{c}| == |m| - 1)
  {
    assert m == m[c := 0] + multiset{c}[c := m[c]];
    if c in m { assert m == (m - multiset{c}) + multiset{c}; }
  }

  lemma ClaimKeepsSound(s: Shared, c: nat, expected: Consent, consent: Consent, commit: Commit)
    requires Sound(s) && IsClaim(expected, consent)
    ensures Sound(After(s, Claims(c, expected, consent, commit)))
  {
    NamesRead(consent);
    hide Meaning, NameOf;
  }

  lemma {:induction false} RunKeepsSound(s: Shared, steps: seq<Step>)
    requires Sound(s) && Permitted(s, steps)
    ensures Sound(Run(s, steps))
    decreases |steps|
  {
    hide Sound, Enabled, After;
    if steps != [] {
      StepKeepsSound(s, steps[0]);
      RunKeepsSound(After(s, steps[0]), steps[1..]);
    }
  }

  lemma {:induction false} RunJoins(s: Shared, a: seq<Step>, b: seq<Step>)
    ensures Run(s, a + b) == Run(Run(s, a), b)
    ensures Permitted(s, a + b) <==> Permitted(s, a) && Permitted(Run(s, a), b)
    decreases |a|
  {
    hide After, Enabled;
    if a == [] {
      assert a + b == b;
    } else {
      RunJoins(After(s, a[0]), a[1..], b);
      assert (a + b)[1..] == a[1..] + b;
    }
  }

  /** In a permitted run, with failed commits and restarts: one activation, one permission
      launch, each on a claim the file kept. */
  lemma OneShot(saved: Saved, steps: seq<Step>)
    requires Permitted(From(saved), steps)
    ensures var s := Run(From(saved), steps);
      && s.activations <= s.attempts <= 1 && s.launches <= s.prompts <= 1
      && (s.activations == 1 ==> Meaning(s.saved.memory) == Meaning(s.saved.file) == ActivationAttempted)
      && (s.launches == 1 ==> Meaning(s.saved.memory) != Eligible && Meaning(s.saved.file) != Eligible)
  {
    hide Run, Permitted, Meaning;
    RunKeepsSound(From(saved), steps);
  }

  // ---- What one operation did ----

  /** A controller's own view of its step: of a claim it learns only whether it won. */
  datatype Did = Tried(expected: Consent, consent: Consent, commit: Commit, won: bool) | DidActivate | DidLaunch

  predicate WonJustBefore(op: seq<Did>, i: nat, consent: Consent)
    requires i <= |op|
  {
    i > 0 && op[i - 1].Tried? && op[i - 1].won && op[i - 1].consent == consent
  }

  /** An effect directly follows the claim that this operation won for it. */
  predicate Careful(op: seq<Did>) {
    forall i :: 0 <= i < |op| ==>
      match op[i]
      case Tried(expected, consent, _, _) => IsClaim(expected, consent)
      case DidActivate => WonJustBefore(op, i, ActivationAttempted)
      case DidLaunch => WonJustBefore(op, i, PermissionPending)
  }

  function Count(op: seq<Did>, d: Did): nat {
    if op == [] then 0 else Count(op[..|op| - 1], d) + if op[|op| - 1] == d then 1 else 0
  }

  /** Both copies after the operation's claims, when no other controller intervened. */
  function Replay(before: Saved, op: seq<Did>): Saved {
    if op == [] then before
    else
      var mid, d := Replay(before, op[..|op| - 1]), op[|op| - 1];
      if d.Tried? then Claim(mid, d.expected, d.consent, d.commit).0 else mid
  }

  /** Every claim won or lost as the copies at that moment decide. */
  predicate Real(before: Saved, op: seq<Did>) {
    forall i :: 0 <= i < |op| && op[i].Tried? ==>
      op[i].won == Claim(Replay(before, op[..i]), op[i].expected, op[i].consent, op[i].commit).1
  }

  lemma MoreDone(before: Saved, op: seq<Did>, d: Did)
    ensures Replay(before, op + [d]) ==
            if d.Tried? then Claim(Replay(before, op), d.expected, d.consent, d.commit).0 else Replay(before, op)
    ensures Real(before, op + [d]) <==>
            Real(before, op) && (d.Tried? ==> d.won == Claim(Replay(before, op), d.expected, d.consent, d.commit).1)
    ensures Careful(op + [d]) <==>
            Careful(op) && match d
                           case Tried(expected, consent, _, _) => IsClaim(expected, consent)
                           case DidActivate => WonJustBefore(op, |op|, ActivationAttempted)
                           case DidLaunch => WonJustBefore(op, |op|, PermissionPending)
    ensures forall x :: Count(op + [d], x) == Count(op, x) + if d == x then 1 else 0
  {
    var more := op + [d];
    assert more[..|op|] == op && more[|op|] == d;
    assert forall i :: 0 <= i <= |op| ==> more[..i] == op[..i];
    assert forall i :: 0 <= i < |op| ==> more[i] == op[i];
    hide Claim, IsClaim;
  }

  // ---- Any interleaving of operations ----

  function StepOf(c: nat, d: Did): Step {
    match d
    case Tried(expected, consent, commit, _) => Claims(c, expected, consent, commit)
    case DidActivate => Activates(c)
    case DidLaunch => Launches(c)
  }

  /** What each controller's current operation has done so far. */
  type Operations = map<nat, seq<Did>>

  function OperationOf(ops: Operations, c: nat): seq<Did> { if c in ops then ops[c] else [] }

  function Extended(s: Shared, ops: Operations, e: Step): Operations {
    match e
    case Claims(c, expected, consent, commit) =>
      ops[c := OperationOf(ops, c) + [Tried(expected, consent, commit, Claim(s.saved, expected, consent, commit).1)]]
    case Activates(c) => ops[c := OperationOf(ops, c) + [DidActivate]]
    case Launches(c) => ops[c := OperationOf(ops, c) + [DidLaunch]]
    case Ends(c) => ops - {c}
    case Restarts => map[]
  }

  /** Steps of controllers whose every operation is careful, interleaved in any way. */
  predicate ByControllers(s: Shared, ops: Operations, steps: seq<Step>)
    decreases |steps|
  {
    && (forall c :: c in ops ==> Careful(ops[c]))
    && (steps != [] ==> ByControllers(After(s, steps[0]), Extended(s, ops, steps[0]), steps[1..]))
  }

  /** A claim just won has not been used or lost. */
  predicate Backed(s: Shared, ops: Operations) {
    forall c :: c in ops ==>
      && (WonJustBefore(ops[c], |ops[c]|, ActivationAttempted) ==> c in s.mayActivate)
      && (WonJustBefore(ops[c], |ops[c]|, PermissionPending) ==> c in s.mayLaunch)
  }

  lemma LastWon(op: seq<Did>, d: Did, consent: Consent)
    ensures WonJustBefore(op + [d], |op| + 1, consent) <==> d.Tried? && d.won && d.consent == consent
  {}

  lemma StepIsEnabled(s: Shared, ops: Operations, e: Step)
    requires Backed(s, ops) && forall c :: c in Extended(s, ops, e) ==> Careful(Extended(s, ops, e)[c])
    ensures Enabled(s, e) && Backed(After(s, e), Extended(s, ops, e))
  {
    hide IsClaim, Careful, WonJustBefore;
    if e.Claims? || e.Activates? || e.Launches? {
      var c := e.controller;
      var op, next := OperationOf(ops, c), Extended(s, ops, e);
      var d := if e.Claims? then Tried(e.expected, e.consent, e.commit, Claim(s.saved, e.expected, e.consent, e.commit).1)
               else if e.Activates? then DidActivate else DidLaunch;
      assert next == ops[c := op + [d]] && Careful(next[c]);
      MoreDone(s.saved, op, d);
      NothingWon(ActivationAttempted);
      NothingWon(PermissionPending);
      LastWon(op, d, ActivationAttempted);
      LastWon(op, d, PermissionPending);
      hide Claim, Extended;
      StillBacked(s, ops, e, d);
    }
  }

  lemma NothingWon(consent: Consent)
    ensures !WonJustBefore([], 0, consent)
  {}

  lemma StillBacked(s: Shared, ops: Operations, e: Step, d: Did)
    requires Backed(s, ops) && (e.Claims? || e.Activates? || e.Launches?)
    requires e.Claims? ==> d.Tried? && d.consent == e.consent && d.won == Claim(s.saved, e.expected, e.consent, e.commit).1
    requires e.Activates? ==> d == DidActivate
    requires e.Launches? ==> d == DidLaunch
    ensures Backed(After(s, e), ops[e.controller := OperationOf(ops, e.controller) + [d]])
  {
    hide Claim, WonJustBefore;
    var c := e.controller;
    LastWon(OperationOf(ops, c), d, ActivationAttempted);
    LastWon(OperationOf(ops, c), d, PermissionPending);
  }

  /** Careful operations are all the protocol asks of a controller. */
  lemma {:induction false} CarefulIsPermitted(s: Shared, ops: Operations, steps: seq<Step>)
    requires ByControllers(s, ops, steps) && Backed(s, ops)
    ensures Permitted(s, steps)
    decreases |steps|
  {
    hide After, Enabled, Extended, Careful, Backed;
    if steps != [] {
      var next := Extended(s, ops, steps[0]);
      assert ByControllers(After(s, steps[0]), next, steps[1..]);
      StepIsEnabled(s, ops, steps[0]);
      CarefulIsPermitted(After(s, steps[0]), next, steps[1..]);
    }
  }

  /** Any number of controllers whose operations are careful, over any interleaving of their
      steps, refused commits and restarts, activate at most once and launch at most once. */
  lemma OneShotInterleaved(saved: Saved, steps: seq<Step>)
    requires ByControllers(From(saved), map[], steps)
    ensures var s := Run(From(saved), steps);
      && s.activations <= s.attempts <= 1 && s.launches <= s.prompts <= 1
      && (s.activations == 1 ==> Meaning(s.saved.memory) == Meaning(s.saved.file) == ActivationAttempted)
      && (s.launches == 1 ==> Meaning(s.saved.memory) != Eligible && Meaning(s.saved.file) != Eligible)
  {
    hide Run, Permitted, ByControllers, Meaning;
    assert Backed(From(saved), map[]);
    CarefulIsPermitted(From(saved), map[], steps);
    OneShot(saved, steps);
  }

  // ---- One operation after another ----

  function StepsOf(c: nat, op: seq<Did>): seq<Step> {
    if op == [] then [] else StepsOf(c, op[..|op| - 1]) + [StepOf(c, op[|op| - 1])]
  }

  lemma RunOne(s: Shared, e: Step)
    ensures Run(s, [e]) == After(s, e) && (Permitted(s, [e]) <==> Enabled(s, e))
  {
    hide After, Enabled;
    assert [e][1..] == [];
    assert Run(After(s, e), []) == After(s, e);
  }

  /** A careful operation, undisturbed, is a permitted stretch of the protocol. */
  lemma {:induction false} OperationRuns(s: Shared, c: nat, op: seq<Did>)
    requires Careful(op) && Real(s.saved, op)
    ensures Permitted(s, StepsOf(c, op))
    ensures var t := Run(s, StepsOf(c, op));
      && t.saved == Replay(s.saved, op)
      && t.activations == s.activations + Count(op, DidActivate) && t.launches == s.launches + Count(op, DidLaunch)
      && (WonJustBefore(op, |op|, ActivationAttempted) ==> c in t.mayActivate)
      && (WonJustBefore(op, |op|, PermissionPending) ==> c in t.mayLaunch)
    decreases |op|
  {
    if op != [] {
      var front, d := op[..|op| - 1], op[|op| - 1];
      assert op == front + [d];
      MoreDone(s.saved, front, d);
      OperationRuns(s, c, front);
      var t := Run(s, StepsOf(c, front));
      RunJoins(s, StepsOf(c, front), [StepOf(c, d)]);
      RunOne(t, StepOf(c, d));
      hide Claim, Run, Permitted, Careful, Real, IsClaim;
    }
  }

  /** Once both copies are settled no claim ever wins again, in this process or a later one. */
  lemma {:induction false} SettledForever(s: Shared, steps: seq<Step>)
    requires Permitted(s, steps) && Settled(Meaning(s.saved.memory)) && Settled(Meaning(s.saved.file))
    ensures var t := Run(s, steps);
      && Settled(Meaning(t.saved.memory)) && Settled(Meaning(t.saved.file))
      && t.attempts == s.attempts && t.prompts == s.prompts
    decreases |steps|
  {
    hide Meaning, NameOf;
    if steps != [] { SettledForever(After(s, steps[0]), steps[1..]); }
  }

  /** The history only moves forward: what a fresh read could mean never becomes eligible again
      after a won claim, and an unknown saved name is never eligible at all. */
  lemma UnknownNamesAreConsumed(saved: string, steps: seq<Step>)
    requires saved !in {NameOf(Eligible), NameOf(PermissionPending), NameOf(PermissionDeclined), NameOf(ActivationAttempted)}
    requires Permitted(Start(Some(saved)), steps)
    ensures Run(Start(Some(saved)), steps).activations == 0 && Run(Start(Some(saved)), steps).launches == 0
  {
    hide Run, Permitted;
    assert Meaning(Some(saved)) == ActivationAttempted;
    SettledForever(Start(Some(saved)), steps);
    RunKeepsSound(Start(Some(saved)), steps);
  }

  /** Acting on a refused commit would have broken this: its claim can be won again. */
  lemma RefusedClaimsCanBeWonLater()
    ensures var start := Start(None);
            var steps := [Claims(1, Eligible, ActivationAttempted, Refused(true, false)), Restarts,
                          Claims(2, Eligible, ActivationAttempted, Kept)];
      Permitted(start, steps) && Run(start, steps).attempts == 1 && Run(start, steps).mayActivate == multiset{2}
  {
    var start := Start(None);
    var c1, c2 := Claims(1, Eligible, ActivationAttempted, Refused(true, false)), Claims(2, Eligible, ActivationAttempted, Kept);
    var s1 := After(start, c1);
    var s2 := After(s1, Restarts);
    assert Run(start, [c1, Restarts, c2]) == Run(s1, [Restarts, c2]) by { assert [c1, Restarts, c2][1..] == [Restarts, c2]; }
    assert Run(s1, [Restarts, c2]) == Run(s2, [c2]) by { assert [Restarts, c2][1..] == [c2]; }
    assert Run(s2, [c2]) == After(s2, c2) by { assert [c2][1..] == []; }
    assert Permitted(s2, [c2]) && Permitted(s1, [Restarts, c2]) by { assert [c2][1..] == [] && [Restarts, c2][1..] == [c2]; }
    assert [c1, Restarts, c2][1..] == [Restarts, c2];
  }
}
