/** The watch-face controller: a busy/permission state machine around foreign calls that may
    fail, be cancelled or be missing from the platform at every step. */
module WatchFaceControl {
  import opened Wrappers
  import opened WatchFaceConsentHistory

  // ---- What the screen sees ----

  datatype Status =
    | Checking | CheckFailed | FaceUnsupported | SeparateInstall | Missing | NoCapacity
    | Installed | InUse | InstallFailed | UpdateFailed

  datatype Manual = PermissionWasDeclined | ActivationUnavailable

  datatype State = State(status: Status, busy: bool, updateAvailable: bool, useAvailable: bool,
                         manual: Option<Manual>, awaitingPermission: bool)

  function Plain(status: Status, busy: bool, manual: Option<Manual>): State {
    State(status, busy, false, false, manual, false)
  }

  /** Use is offered only on an installed face with nothing pending and no manual fallback. */
  predicate Offered(s: State) {
    s.useAvailable ==> s.status == Installed && s.manual.None? && !s.awaitingPermission
  }

  function ManualFor(c: Consent): Option<Manual> {
    match c
    case Eligible => None
    case PermissionDeclined => Some(PermissionWasDeclined)
    case PermissionPending => Some(ActivationUnavailable)
    case ActivationAttempted => Some(ActivationUnavailable)
  }

  // ---- Foreign calls ----

  datatype Thrown = Ordinary | ReadFailure | Cancellation | Linkage

  datatype Outcome<+T> = Done(value: T) | Threw(why: Thrown)

  const PushFacePackage := "app.wardpulse.watchfacepush.main"

  datatype Bundle = Bundle(package: string, version: int)
  datatype Face = Face(slot: string, package: string, version: int)
  datatype Inventory = Inventory(faces: seq<Face>, remainingSlots: int)

  /** What one foreign call would answer, whichever call it is. */
  datatype Answer = Answer(flag: Outcome<bool>, bundle: Outcome<Bundle>, inventory: Outcome<Inventory>,
                           face: Outcome<Face>, nothing: Outcome<()>)

  function Surfaced(why: Thrown): Thrown { if why == Ordinary then ReadFailure else why }

  /** The platform, scripted; it counts the two effects that must not repeat. */
  class Platform {
    const sdk: int
    const script: nat -> Answer
    var calls: nat
    var activations: nat
    var launches: nat
    var activated: seq<string>   // the slots, in order

    constructor (sdk: int, script: nat -> Answer)
    {
      this.sdk := sdk;
      this.script := script;
      calls, activations, launches, activated := 0, 0, 0, [];
    }

    /** The coroutine is cancelled where the `k`th call would suspend. */
    predicate Cancelled(k: nat) { script(k).nothing == Threw(Cancellation) }

    /** The bundle and the inventory that a look starting with the `k`th call would read. */
    predicate Readable(k: nat) {
      && !Cancelled(k) && sdk >= 34 && script(k + 1).flag == Done(true)
      && script(k + 2).bundle.Done? && script(k + 3).inventory.Done?
      && script(k + 2).bundle.value.package == PushFacePackage && script(k + 2).bundle.value.version > 0
      && script(k + 3).inventory.value.remainingSlots >= 0
    }

    /** The installed faces of the bundle's package, in the order listed. */
    function Faces(k: nat): seq<Face>
      requires Readable(k)
    {
      Matching(script(k + 3).inventory.value.faces, script(k + 2).bundle.value.package)
    }

    /** A look succeeds: at most one face, and where that matters whether it is in use is known. */
    predicate Visible(k: nat, observeActive: bool) {
      Readable(k) && |Faces(k)| <= 1 && (observeActive && Faces(k) != [] ==> script(k + 4).flag.Done?)
    }

    predicate Vacant(k: nat) { Visible(k, false) && Faces(k) == [] && script(k + 3).inventory.value.remainingSlots > 0 }

    predicate Outdated(k: nat) {
      Visible(k, false) && Faces(k) != [] && Faces(k)[0].version < script(k + 2).bundle.value.version
    }

    /** The face is installed and not in use. */
    predicate Usable(k: nat) { Visible(k, true) && Faces(k) != [] && script(k + 4).flag == Done(false) }

    /** Why a look fails: a cancellation, the first call that throws, or an answer that makes no
        sense. What is read never fails as an ordinary failure. */
    predicate Fails(k: nat, observeActive: bool, why: Thrown) {
      if Cancelled(k) then why == Cancellation
      else if sdk < 34 then false
      else if script(k + 1).flag.Threw? then why == Surfaced(script(k + 1).flag.why)
      else if !script(k + 1).flag.value then false
      else if script(k + 2).bundle.Threw? then why == Surfaced(script(k + 2).bundle.why)
      else if script(k + 2).bundle.value.package != PushFacePackage || script(k + 2).bundle.value.version <= 0 then
        why == ReadFailure
      else if script(k + 3).inventory.Threw? then why == Surfaced(script(k + 3).inventory.why)
      else if !Readable(k) || |Faces(k)| > 1 then why == ReadFailure
      else
        observeActive && Faces(k) != [] && script(k + 4).flag.Threw? && why == Surfaced(script(k + 4).flag.why)
    }

    /** What the screen shows after a look. */
    predicate Shown(s: State, k: nat, observeActive: bool, history: Consent)
      requires Visible(k, observeActive)
    {
      var installed, active := Faces(k) != [], observeActive && Faces(k) != [] && script(k + 4).flag == Done(true);
      && (s.status == InUse <==> active) && (s.status == Installed <==> installed && !active)
      && (s.status == Missing <==> !installed && script(k + 3).inventory.value.remainingSlots > 0)
      && (s.status == NoCapacity <==> !installed && script(k + 3).inventory.value.remainingSlots == 0)
      && (s.updateAvailable <==> installed && Faces(k)[0].version < script(k + 2).bundle.value.version)
      && (s.useAvailable <==> installed && !active && history == Eligible) && !s.awaitingPermission
      && (s.manual.None? <==> history == Eligible)
      && (s.manual == Some(PermissionWasDeclined) <==> history == PermissionDeclined)
    }

    method Call() returns (a: Answer)
      modifies this`calls
      ensures a == script(old(calls)) && calls == old(calls) + 1
    {
      a := script(calls);
      calls := calls + 1;
    }

    method Activate(slot: string) returns (r: Outcome<()>)
      modifies this`calls, this`activations, this`activated
      ensures activations == old(activations) + 1 && activated == old(activated) + [slot]
      ensures r == script(old(calls)).nothing && calls == old(calls) + 1
    {
      activations, activated := activations + 1, activated + [slot];
      var a := Call();
      r := a.nothing;
    }

    method LaunchPermission() returns (r: Outcome<()>)
      modifies this`calls, this`launches
      ensures launches == old(launches) + 1 && r == script(old(calls)).nothing && calls == old(calls) + 1
    {
      launches := launches + 1;
      var a := Call();
      r := a.nothing;
    }
  }

  /** `reading`: an ordinary failure becomes a read failure. */
  function Reading<T>(o: Outcome<T>): Outcome<T> {
    if o.Threw? && o.why == Ordinary then Threw(ReadFailure) else o
  }

  datatype Seen = Seen(bundle: Bundle, inventory: Inventory, installed: Option<Face>)

  function Matching(faces: seq<Face>, package: string): seq<Face> {
    if faces == [] then []
    else (if faces[0].package == package then [faces[0]] else []) + Matching(faces[1..], package)
  }

  /** The shared history, and the effects counted so far. */
  datatype Before = Before(saved: Saved, activations: nat, launches: nat)

  class WatchFaceController {
    const client: Platform
    const consent: WatchFaceConsentStore
    var state: State
    // What the current or last operation did, and from what it started.
    ghost var op: seq<Did>
    ghost var began: Before

    ghost predicate Valid()
      reads this
    {
      Offered(state)
    }

    /** Between operations. */
    ghost predicate AtRest()
      reads this
    {
      Valid() && state.busy == state.awaitingPermission
    }

    ghost function Snapshot(): Before
      reads consent.preferences, client`activations, client`launches
    {
      Before(consent.preferences.Now(), client.activations, client.launches)
    }

    /** Every claim and every effect is in the record, and each effect directly follows the
        claim won for it. */
    ghost predicate Logged()
      reads this`op, this`began, consent.preferences, client`activations, client`launches
    {
      && Careful(op) && Real(began.saved, op)
      && Snapshot() == Before(Replay(began.saved, op), began.activations + Count(op, DidActivate),
                              began.launches + Count(op, DidLaunch))
    }

    constructor (client: Platform, consent: WatchFaceConsentStore)
      ensures this.client == client && this.consent == consent && AtRest()
      ensures state == Plain(Checking, false, None)
    {
      this.client := client;
      this.consent := consent;
      state := Plain(Checking, false, None);
      op := [];
      began := Before(Saved(None, None), 0, 0);
    }

    // ---- Pieces of an operation ----

    /** Leaving or entering a dispatcher: the only news is a cancellation. */
    method Suspend() returns (r: Outcome<()>)
      modifies client`calls
      ensures client.calls == old(client.calls) + 1
      ensures r == if client.Cancelled(old(client.calls)) then Threw(Cancellation) else Done(())
    {
      var a := client.Call();
      r := if a.nothing.Threw? && a.nothing.why == Cancellation then Threw(Cancellation) else Done(());
    }

    method ClaimConsent(expected: Consent, history: Consent) returns (won: bool, ghost commit: Commit)
      requires IsClaim(expected, history) && Logged()
      modifies this`op, consent.preferences
      ensures Logged() && op == old(op) + [Tried(expected, history, commit, won)]
      ensures (consent.preferences.Now(), won) == Claim(old(consent.preferences.Now()), expected, history, commit)
      ensures won ==> Meaning(consent.preferences.memory) == Meaning(consent.preferences.file) == history
      ensures won <==> Meaning(old(consent.preferences.memory)) == expected && commit.Kept?
      ensures commit == consent.preferences.outcomes(old(consent.preferences.commits))
    {
      commit := consent.preferences.outcomes(consent.preferences.commits);
      won := consent.CompareAndSet(expected, history);
      MoreDone(began.saved, op, Tried(expected, history, commit, won));
      op := op + [Tried(expected, history, commit, won)];
      hide Careful, Real, Replay, Count, Claim, Meaning, IsClaim;
    }

    method ManualSelection(reason: Manual)
      modifies this`state
      ensures state == old(state).(useAvailable := false, manual := Some(reason), awaitingPermission := false) && Valid()
    {
      state := state.(useAvailable := false, manual := Some(reason), awaitingPermission := false);
    }

    lemma ShownBy(k: nat, observeActive: bool, installed: Option<Face>, active: bool, history: Consent)
      requires client.Visible(k, observeActive)
      requires client.Faces(k) == if installed.Some? then [installed.value] else []
      requires active == (observeActive && installed.Some? && client.script(k + 4).flag == Done(true))
      requires state == State(if active then InUse else if installed.Some? then Installed
                              else if client.script(k + 3).inventory.value.remainingSlots > 0 then Missing else NoCapacity,
                              true, installed.Some? && installed.value.version < client.script(k + 2).bundle.value.version,
                              installed.Some? && !active && history == Eligible, ManualFor(history), false)
      ensures client.Shown(state, k, observeActive, history)
    {}

    /** Reads everything afresh and publishes it; nothing to act on when the face is unsupported. */
    method Look(observeActive: bool) returns (r: Outcome<Option<Seen>>)
      modifies this`state, client`calls
      ensures r.Threw? ==> state == old(state)
      ensures r == Done(None) ==> state == Plain(if client.sdk < 34 then FaceUnsupported else SeparateInstall, true, None)
      ensures r.Done? && r.value.Some? ==> var seen := r.value.value;
        && client.sdk >= 34 && seen.bundle.package == PushFacePackage && seen.bundle.version > 0
        && seen.inventory.remainingSlots >= 0
        && Matching(seen.inventory.faces, seen.bundle.package) == (if seen.installed.Some? then [seen.installed.value] else [])
        && (seen.installed.None? ==> state.status == if seen.inventory.remainingSlots > 0 then Missing else NoCapacity)
        && (state.updateAvailable <==> seen.installed.Some? && seen.installed.value.version < seen.bundle.version)
      ensures r.Done? && r.value.Some? ==>
        && state.busy && !state.awaitingPermission && Valid()
        && (state.status == Installed || state.status == InUse <==> r.value.value.installed.Some?)
        && (!observeActive ==> state.status != InUse)
        && (state.useAvailable <==> state.status == Installed && Meaning(consent.preferences.memory) == Eligible)
        && state.manual == ManualFor(Meaning(consent.preferences.memory))
      ensures var k := old(client.calls);
        && (r.Done? && r.value.Some? <==> client.Visible(k, observeActive))
        && (r == Done(None) <==> !client.Cancelled(k) && (client.sdk < 34 || client.script(k + 1).flag == Done(false)))
        && (r.Threw? ==> client.Fails(k, observeActive, r.why))
        && (r == Done(None) ==> client.calls == if client.sdk < 34 then k + 1 else k + 2)
      ensures r.Done? && r.value.Some? ==> var k, seen := old(client.calls), r.value.value;
        && seen.bundle == client.script(k + 2).bundle.value && seen.inventory == client.script(k + 3).inventory.value
        && client.calls == (if observeActive && seen.installed.Some? then k + 5 else k + 4)
        && client.Shown(state, k, observeActive, Meaning(consent.preferences.memory))
    {
      hide Meaning, Platform.Shown;
      var entered := Suspend();
      if entered.Threw? { return Threw(Cancellation); }
      if client.sdk < 34 {
        state := Plain(FaceUnsupported, true, None);
        return Done(None);
      }
      var supported := client.Call();
      if Reading(supported.flag).Threw? { return Threw(Reading(supported.flag).why); }
      if !supported.flag.value {
        state := Plain(SeparateInstall, true, None);
        return Done(None);
      }
      var packed := client.Call();
      if Reading(packed.bundle).Threw? { return Threw(Reading(packed.bundle).why); }
      var bundle := packed.bundle.value;
      if bundle.package != PushFacePackage || bundle.version <= 0 { return Threw(ReadFailure); }
      var listed := client.Call();
      if Reading(listed.inventory).Threw? { return Threw(Reading(listed.inventory).why); }
      var inventory := listed.inventory.value;
      var found := Matching(inventory.faces, bundle.package);
      if inventory.remainingSlots < 0 || |found| > 1 { return Threw(ReadFailure); }
      var installed := if |found| == 1 then Some(found[0]) else None;
      var active := false;
      if installed.Some? && observeActive {
        var observed := client.Call();
        if Reading(observed.flag).Threw? { return Threw(Reading(observed.flag).why); }
        active := observed.flag.value;
      }
      var history := consent.Read();
      state := State(if active then InUse else if installed.Some? then Installed
                     else if inventory.remainingSlots > 0 then Missing else NoCapacity,
                     true, installed.Some? && installed.value.version < bundle.version,
                     installed.Some? && !active && history == Eligible, ManualFor(history), false);
      ShownBy(old(client.calls), observeActive, installed, active, history);
      r := Done(Some(Seen(bundle, inventory, installed)));
    }

    /** Spends one won attempt. Only a cancellation escapes. */
    method Activate(installed: Face) returns (r: Outcome<()>)
      requires Logged() && WonJustBefore(op, |op|, ActivationAttempted)
      modifies this`state, this`op, client`calls, client`activations, client`activated
      ensures Logged() && op == old(op) + [DidActivate]
      ensures state == old(state).(useAvailable := false, manual := Some(ActivationUnavailable), awaitingPermission := false)
      ensures r == if client.Cancelled(old(client.calls)) then Threw(Cancellation) else Done(())
      ensures client.activated == old(client.activated) + [installed.slot] && client.calls == old(client.calls) + 1
    {
      ManualSelection(ActivationUnavailable);
      MoreDone(began.saved, op, DidActivate);
      op := op + [DidActivate];
      var done := client.Activate(installed.slot);
      r := if done.Threw? && done.why == Cancellation then done else Done(());
    }

    /** The pending history is declined unless a cancellation comes first. */
    method AbandonPermission() returns (r: Outcome<()>, ghost tried: seq<Did>)
      requires Valid() && Logged()
      modifies this`state, this`op, consent.preferences, client`calls
      ensures Valid() && Logged() && op == old(op) + tried
      ensures tried == [] ==> r.Threw? && state == old(state)
      ensures tried != [] ==>
        && |tried| == 1 && tried[0].Tried? && tried[0].expected == PermissionPending && tried[0].consent == PermissionDeclined
        && state == old(state).(useAvailable := false, manual := Some(PermissionWasDeclined), awaitingPermission := false)
        && (tried[0].won ==> Meaning(consent.preferences.memory) == Meaning(consent.preferences.file) == PermissionDeclined)
        && (Meaning(old(consent.preferences.memory)) == PermissionPending ==> tried[0].won == tried[0].commit.Kept?)
      ensures r.Threw? ==> r.why == Cancellation
      ensures var k := old(client.calls);
        && (tried == [] <==> client.Cancelled(k)) && (r.Done? <==> !client.Cancelled(k) && !client.Cancelled(k + 1))
    {
      tried := [];
      r := Suspend();
      if r.Threw? { return; }
      ManualSelection(PermissionWasDeclined);
      var won, commit := ClaimConsent(PermissionPending, PermissionDeclined);
      tried := [Tried(PermissionPending, PermissionDeclined, commit, won)];
      r := Suspend();
    }

    // ---- The operation frame ----

    /** The caller holds the mutex. A permission result completes an operation, so it passes
        where a second tap does not. */
    method Enter(permissionResult: bool) returns (entered: bool)
      requires AtRest()
      modifies this`state, this`op, this`began
      ensures entered == (!old(state).busy || permissionResult)
      ensures state == if entered then old(state).(busy := true) else old(state)
      ensures Logged() && op == [] && began == old(Snapshot())
    {
      op, began := [], Snapshot();
      if state.busy && !(permissionResult && state.awaitingPermission) { return false; }
      state := state.(busy := true);
      entered := true;
    }

    predicate Interrupted(outcome: Outcome<()>, preserve: bool)
      reads this
    {
      outcome == Threw(Cancellation) && preserve && state.status == Installed && state.manual.Some?
    }

    method Leave(outcome: Outcome<()>, failure: Status, preserve: bool)
      requires Valid()
      modifies this`state
      ensures AtRest()
      ensures var kept := outcome == Threw(Cancellation) && preserve && old(state).status == Installed && old(state).manual.Some?;
        state == if outcome.Done? || kept then old(state).(busy := old(state).awaitingPermission)
                 else Plain(if outcome.why == Ordinary || outcome.why == Cancellation then failure else CheckFailed, false,
                            if outcome.why == Linkage then None else Some(ActivationUnavailable))
    {
      if outcome.Threw? {
        if outcome.why == Linkage {
          state := Plain(CheckFailed, false, None);
        } else if !Interrupted(outcome, preserve) {
          state := Plain(if outcome.why == ReadFailure then CheckFailed else failure, false, Some(ActivationUnavailable));
        }
      }
      state := state.(busy := state.awaitingPermission);
    }

    // ---- check ----

    lemma ShownAtRest(s: State, s': State, k: nat, observeActive: bool, history: Consent)
      requires client.Visible(k, observeActive) && client.Shown(s, k, observeActive, history) && s' == s.(busy := s'.busy)
      ensures client.Shown(s', k, observeActive, history)
    {
      hide Platform.Visible;
    }

    method Check()
      requires AtRest()
      modifies this, client`calls
      ensures AtRest() && Logged() && op == [] && began == old(Snapshot())
      ensures old(state).awaitingPermission ==> state == old(state)
      ensures state.useAvailable ==> Meaning(consent.preferences.memory) == Eligible
      ensures var k := old(client.calls);
        if old(state).busy then state == old(state)
        else if client.Visible(k, true) && !client.Cancelled(if client.Faces(k) != [] then k + 5 else k + 4) then
          client.Shown(state, k, true, Meaning(consent.preferences.memory))
        else
          && (state.status == FaceUnsupported <==> client.sdk < 34 && !client.Cancelled(k) && !client.Cancelled(k + 1))
          && (state.status == SeparateInstall <==>
                client.sdk >= 34 && client.script(k + 1).flag == Done(false) && !client.Cancelled(k) && !client.Cancelled(k + 2))
          && state.status in {CheckFailed, FaceUnsupported, SeparateInstall}
      ensures !old(state).busy ==> !state.busy
    {
      hide Platform.Fails, Platform.Shown, Matching, Meaning, Careful, Real, Replay, Count;
      var entered := Enter(false);
      if !entered { return; }
      state := Plain(Checking, true, None);
      var seen := Look(true);
      ghost var looked := state;
      var outcome := if seen.Threw? then Threw(seen.why) else Done(());
      if outcome.Done? { outcome := Suspend(); }
      Leave(outcome, CheckFailed, false);
      if seen.Done? && seen.value.Some? && outcome.Done? {
        ShownAtRest(looked, state, old(client.calls), true, Meaning(consent.preferences.memory));
      }
    }

    // ---- install and update ----

    method ShowInstalled()
      requires Valid() && !state.awaitingPermission
      modifies this`state
      ensures Valid()
      ensures state == old(state).(status := Installed, updateAvailable := false, useAvailable := old(state).manual.None?)
    {
      state := state.(status := Installed, updateAvailable := false, useAvailable := state.manual.None?);
    }

    /** The platform's answer must be the bundle that was sent. */
    predicate Verified(face: Face, bundle: Bundle) { face.package == bundle.package && face.version == bundle.version }

    /** What a push to the platform was for, and what it answered. */
    predicate Accepted(push: (Seen, Outcome<Face>)) {
      push.1.Done? && push.1.value.package == push.0.bundle.package && push.1.value.version == push.0.bundle.version
    }

    /** `push` is the platform's answer, if it was asked to install at all. */
    method InstallFace() returns (r: Outcome<()>, ghost push: Option<(Seen, Outcome<Face>)>)
      requires Valid()
      modifies this`state, client`calls
      ensures r.Done? ==> Valid() && !state.awaitingPermission
      ensures r.Threw? ==> state == old(state) || (Valid() && !state.awaitingPermission)
      ensures r.Done? && state.useAvailable ==> Meaning(consent.preferences.memory) == Eligible
      ensures push.Some? ==> push.value.0.installed.None? && push.value.0.inventory.remainingSlots > 0
      ensures push.Some? && r.Done? ==> Accepted(push.value) && state.status == Installed && !state.updateAvailable
      ensures r.Done? && push.None? ==> state.status != InUse
      ensures var k := old(client.calls);
        && push == (if client.Vacant(k) then Some((Seen(client.script(k + 2).bundle.value, client.script(k + 3).inventory.value, None),
                                                   client.script(k + 4).face)) else None)
        && (client.Vacant(k) && Accepted(push.value) ==> r == if client.Cancelled(k + 5) then Threw(Cancellation) else Done(()))
        && (client.Vacant(k) && client.script(k + 4).face.Threw? ==> r == Threw(client.script(k + 4).face.why))
    {
      push := None;
      hide Platform.Fails, Matching, Meaning;
      var seen := Look(false);
      if seen.Threw? { return Threw(seen.why), None; }
      if seen.value.Some? && seen.value.value.installed.None? && seen.value.value.inventory.remainingSlots > 0 {
        var result := client.Call();
        push := Some((seen.value.value, result.face));
        if result.face.Threw? { return Threw(result.face.why), push; }
        if !Verified(result.face.value, seen.value.value.bundle) { return Threw(Ordinary), push; }
        ShowInstalled();
      }
      r := Suspend();
    }

    method Install() returns (ghost push: Option<(Seen, Outcome<Face>)>)
      requires AtRest()
      modifies this, client`calls
      ensures AtRest() && Logged() && op == [] && began == old(Snapshot())
      ensures old(state).awaitingPermission ==> state == old(state) && push.None?
      ensures state.useAvailable ==> Meaning(consent.preferences.memory) == Eligible
      ensures push.Some? ==> push.value.0.installed.None? && push.value.0.inventory.remainingSlots > 0
      ensures push.Some? && !Accepted(push.value) ==> state.status == InstallFailed || state.status == CheckFailed
      ensures var k := old(client.calls);
        && (push.Some? <==> !old(state).busy && client.Vacant(k))
        && (push.Some? ==> push.value.0.bundle == client.script(k + 2).bundle.value && push.value.1 == client.script(k + 4).face)
        && (push.Some? && Accepted(push.value) && !client.Cancelled(k + 5) ==> state.status == Installed && !state.updateAvailable)
    {
      push := None;
      hide Platform.Fails, Platform.Shown, Matching, Meaning, Careful, Real, Replay, Count;
      var entered := Enter(false);
      if !entered { return; }
      var outcome;
      outcome, push := InstallFace();
      Leave(outcome, InstallFailed, false);
    }

    /** An update must also keep the slot it was sent to. */
    method UpdateFace() returns (r: Outcome<()>, ghost push: Option<(Seen, Outcome<Face>)>)
      requires Valid()
      modifies this`state, client`calls
      ensures r.Done? ==> Valid() && !state.awaitingPermission
      ensures r.Threw? ==> state == old(state) || (Valid() && !state.awaitingPermission)
      ensures r.Done? && state.useAvailable ==> Meaning(consent.preferences.memory) == Eligible
      ensures push.Some? ==> push.value.0.installed.Some? && push.value.0.installed.value.version < push.value.0.bundle.version
      ensures push.Some? && r.Done? ==>
        && Accepted(push.value) && push.value.1.value.slot == push.value.0.installed.value.slot
        && state.status == Installed && !state.updateAvailable
      ensures var k := old(client.calls);
        && push == (if client.Outdated(k) then Some((Seen(client.script(k + 2).bundle.value, client.script(k + 3).inventory.value,
                                                          Some(client.Faces(k)[0])), client.script(k + 4).face)) else None)
        && (client.Outdated(k) && Accepted(push.value) && push.value.1.value.slot == client.Faces(k)[0].slot ==>
              r == if client.Cancelled(k + 5) then Threw(Cancellation) else Done(()))
    {
      push := None;
      hide Platform.Fails, Matching, Meaning;
      var seen := Look(false);
      if seen.Threw? { return Threw(seen.why), None; }
      if seen.value.Some? && seen.value.value.installed.Some? {
        var installed, bundle := seen.value.value.installed.value, seen.value.value.bundle;
        if installed.version < bundle.version {
          var result := client.Call();
          push := Some((seen.value.value, result.face));
          if result.face.Threw? { return Threw(result.face.why), push; }
          if !Verified(result.face.value, bundle) || result.face.value.slot != installed.slot { return Threw(Ordinary), push; }
          ShowInstalled();
        }
      }
      r := Suspend();
    }

    method Update() returns (ghost push: Option<(Seen, Outcome<Face>)>)
      requires AtRest()
      modifies this, client`calls
      ensures AtRest() && Logged() && op == [] && began == old(Snapshot())
      ensures old(state).awaitingPermission ==> state == old(state) && push.None?
      ensures state.useAvailable ==> Meaning(consent.preferences.memory) == Eligible
      ensures push.Some? ==> push.value.0.installed.Some? && push.value.0.installed.value.version < push.value.0.bundle.version
      ensures push.Some? && !(Accepted(push.value) && push.value.1.value.slot == push.value.0.installed.value.slot) ==>
        state.status == UpdateFailed || state.status == CheckFailed
      ensures var k := old(client.calls);
        && (push.Some? <==> !old(state).busy && client.Outdated(k))
        && (push.Some? ==> push.value.0.bundle == client.script(k + 2).bundle.value && push.value.1 == client.script(k + 4).face)
        && (push.Some? ==> push.value.0.installed == Some(client.Faces(k)[0]))
        && (push.Some? && Accepted(push.value) && push.value.1.value.slot == client.Faces(k)[0].slot && !client.Cancelled(k + 5) ==>
              state.status == Installed && !state.updateAvailable)
    {
      push := None;
      hide Platform.Fails, Platform.Shown, Matching, Meaning, Careful, Real, Replay, Count;
      var entered := Enter(false);
      if !entered { return; }
      var outcome;
      outcome, push := UpdateFace();
      Leave(outcome, UpdateFailed, false);
    }

    // ---- useWatchFace ----

    /** The claim made with the permission at hand, and the effect it allowed. */
    predicate UseSteps(op: seq<Did>, permission: Option<Outcome<bool>>) {
      op != [] ==>
        && permission.Some? && permission.value.Done? && op[0].Tried? && op[0].expected == Eligible
        && op[0].consent == (if permission.value.value then ActivationAttempted else PermissionPending)
        && |op| == (if op[0].won && permission.value.value then 2 else 1)
        && (|op| == 2 ==> op[1] == DidActivate)
    }

    /** A tap asks for the permission exactly when it sees the face installed and not in use, and
        nothing has been tried yet; this is the answer. */
    ghost function Asks(k: nat): Option<Outcome<bool>>
      reads consent.preferences
    {
      if client.Usable(k) && Meaning(consent.preferences.memory) == Eligible then Some(client.script(k + 5).flag) else None
    }

    /** Up to the permission launch: activates on a won attempt, or wins the right to prompt. */
    method ActOnUse() returns (r: Outcome<()>, requestPermission: bool, ghost permission: Option<Outcome<bool>>)
      requires Valid() && Logged() && op == []
      modifies this`state, this`op, consent.preferences, client`calls, client`activations, client`activated
      ensures Logged() && UseSteps(op, permission)
      ensures requestPermission <==> op != [] && op[0].won && permission == Some(Done(false))
      ensures r.Done? ==> Valid() && state.awaitingPermission == requestPermission
      ensures r.Threw? ==> state == old(state) || (Valid() && (state.awaitingPermission ==> state.manual.None?))
      ensures |op| == 2 ==>
        && Valid() && state.status == Installed && state.manual == Some(ActivationUnavailable) && !state.awaitingPermission
        && (r.Threw? ==> r.why == Cancellation)
      ensures permission == old(Asks(client.calls))
      ensures op != [] <==> permission.Some? && permission.value.Done?
      ensures op != [] ==>
        op[0].commit == consent.preferences.outcomes(old(consent.preferences.commits)) && op[0].won == op[0].commit.Kept?
      ensures op != [] && !op[0].won ==>
        && Valid() && state.status == Installed && state.manual == Some(ActivationUnavailable) && !state.awaitingPermission
        && (r.Threw? ==> r.why == Cancellation)
      ensures requestPermission ==>
        client.calls == old(client.calls) + 7 && Meaning(consent.preferences.memory) == PermissionPending
        && r == if client.Cancelled(old(client.calls) + 6) then Threw(Cancellation) else Done(())
      ensures client.activated == old(client.activated) + if |op| == 2 then [client.Faces(old(client.calls))[0].slot] else []
    {
      requestPermission, permission := false, None;
      hide Careful, Real, Replay, Count, Claim, Meaning, Platform.Fails, Matching;
      var seen := Look(true);
      if seen.Threw? { return Threw(seen.why), false, None; }
      if seen.value.Some? && seen.value.value.installed.Some? && state.useAvailable {
        ghost var used := client.script(old(client.calls) + 4).flag;
        assert used.Done? && !used.value && used == Done(used.value);
        var permitted := client.Call();
        permission := Some(permitted.flag);
        if permitted.flag.Threw? { return Threw(permitted.flag.why), false, permission; }
        r, requestPermission := UseFace(seen.value.value.installed.value, permitted.flag.value);
        if r.Threw? { return; }
      }
      r := Suspend();
    }

    /** The claim on the history, and on a won attempt the activation. */
    method UseFace(installed: Face, permitted: bool) returns (r: Outcome<()>, requestPermission: bool)
      requires Valid() && Logged() && op == [] && Meaning(consent.preferences.memory) == Eligible && !state.awaitingPermission
      requires state.status == Installed && state.manual.None?
      modifies this`state, this`op, consent.preferences, client`calls, client`activations, client`activated
      ensures Valid() && Logged() && op != [] && UseSteps(op, Some(Done(permitted)))
      ensures op[0].commit == consent.preferences.outcomes(old(consent.preferences.commits)) && op[0].won == op[0].commit.Kept?
      ensures requestPermission <==> op[0].won && !permitted
      ensures requestPermission ==> Meaning(consent.preferences.memory) == PermissionPending
      ensures state == if requestPermission then old(state).(useAvailable := false, awaitingPermission := true)
                       else old(state).(useAvailable := false, manual := Some(ActivationUnavailable))
      ensures client.calls == old(client.calls) + if |op| == 2 then 1 else 0
      ensures r == if |op| == 2 && client.Cancelled(old(client.calls)) then Threw(Cancellation) else Done(())
      ensures client.activated == old(client.activated) + if |op| == 2 then [installed.slot] else []
    {
      hide Careful, Real, Replay, Count, Claim, Meaning;
      r, requestPermission := Done(()), false;
      if permitted {
        var won, _ := ClaimConsent(Eligible, ActivationAttempted);
        if won { r := Activate(installed); } else { ManualSelection(ActivationUnavailable); }
      } else {
        var won, _ := ClaimConsent(Eligible, PermissionPending);
        if won {
          requestPermission := true;
          state := state.(useAvailable := false, awaitingPermission := true);
        } else {
          ManualSelection(ActivationUnavailable);
        }
      }
    }

    method Prompt() returns (r: Outcome<()>, ghost tried: seq<Did>)
      requires Valid() && state.awaitingPermission && Logged() && WonJustBefore(op, |op|, PermissionPending)
      requires Meaning(consent.preferences.memory) == PermissionPending
      modifies this`state, this`op, consent.preferences, client`calls, client`launches
      ensures Valid() && Logged() && op == old(op) + [DidLaunch] + tried
      ensures tried != [] ==>
        |tried| == 1 && tried[0].Tried? && tried[0].expected == PermissionPending && tried[0].consent == PermissionDeclined
      ensures r.Done? && !state.awaitingPermission ==> tried != [] && state.manual == Some(PermissionWasDeclined)
      ensures var k := old(client.calls);
        && (client.script(k).nothing.Done? ==> r.Done? && tried == [] && state == old(state))
        && (client.script(k).nothing.Threw? ==> var why := client.script(k).nothing.why;
              if why == Linkage then r == Threw(Linkage) && tried == []
              else if client.Cancelled(k + 1) then r == Threw(Cancellation) && tried == []
              else tried != [] && tried[0].won == tried[0].commit.Kept?
                   && (why != Cancellation && !client.Cancelled(k + 2) ==> r.Done? && !state.awaitingPermission))
    {
      tried := [];
      hide Careful, Real, Replay, Count, Claim, Meaning;
      MoreDone(began.saved, op, DidLaunch);
      op := op + [DidLaunch];
      r := client.LaunchPermission();
      if r.Threw? && r.why != Linkage {
        var abandoned;
        abandoned, tried := AbandonPermission();
        r := if abandoned.Threw? then abandoned else if r.why == Cancellation then r else Done(());
      }
    }

    /** One explicit tap: at most one activation or one permission launch, each directly after
        the claim on an eligible history that this very operation won. An activation consumes
        both copies of the history and leaves the manual fallback showing; after a launch
        neither copy is eligible. */
    method UseWatchFace() returns (ghost permission: Option<Outcome<bool>>)
      requires AtRest()
      modifies this, consent.preferences, client`calls, client`activations, client`activated, client`launches
      ensures AtRest() && Logged() && began == old(Snapshot())
      ensures old(state).awaitingPermission ==> state == old(state) && op == []
      ensures client.activations + client.launches <= old(client.activations) + old(client.launches) + 1
      ensures old(client.activations) <= client.activations && old(client.launches) <= client.launches
      ensures client.launches > old(client.launches) ==>
        && permission == Some(Done(false)) && Meaning(old(consent.preferences.memory)) == Eligible
        && Meaning(consent.preferences.memory) != Eligible && Meaning(consent.preferences.file) != Eligible
      ensures client.activations > old(client.activations) ==>
        && permission == Some(Done(true)) && Meaning(old(consent.preferences.memory)) == Eligible
        && Meaning(consent.preferences.memory) == Meaning(consent.preferences.file) == ActivationAttempted
        && state == State(Installed, false, state.updateAvailable, false, Some(ActivationUnavailable), false)
      ensures state.awaitingPermission && !old(state).awaitingPermission ==> client.launches > old(client.launches)
      ensures permission == if old(state).busy then None else old(Asks(client.calls))
      ensures permission.None? || permission.value.Threw? ==>
        op == [] && client.activations == old(client.activations) && client.launches == old(client.launches)
        && client.activated == old(client.activated)
      ensures permission == Some(Done(true)) ==> var commit := consent.preferences.outcomes(old(consent.preferences.commits));
        && op != [] && op[0] == Tried(Eligible, ActivationAttempted, commit, commit.Kept?)
        && client.activations == old(client.activations) + (if commit.Kept? then 1 else 0)
        && client.activated == old(client.activated) + if commit.Kept? then [client.Faces(old(client.calls))[0].slot] else []
      ensures permission == Some(Done(false)) ==> var commit := consent.preferences.outcomes(old(consent.preferences.commits));
        && op != [] && op[0] == Tried(Eligible, PermissionPending, commit, commit.Kept?)
        && var undisturbed := commit.Kept? && !client.Cancelled(old(client.calls) + 6);
           && client.launches == old(client.launches) + (if undisturbed then 1 else 0)
           && (undisturbed && client.script(old(client.calls) + 7).nothing.Done? ==> state.awaitingPermission)
      ensures op != [] && !op[0].won ==> state.manual == Some(ActivationUnavailable) && !state.useAvailable && !state.busy
    {
      permission := None;
      hide Careful, Real, Replay, Count, Claim, Meaning, UseSteps, WonJustBefore, Platform.Fails, Platform.Shown, Matching;
      var entered := Enter(false);
      if !entered { return; }
      var outcome, requestPermission;
      outcome, requestPermission, permission := ActOnUse();
      ghost var first := op;
      ghost var tried := [];
      FirstClaim(first, permission);
      if outcome.Done? && requestPermission { outcome, tried := Prompt(); }
      UseFacts(began.saved, first, op, tried, permission);
      Leave(outcome, CheckFailed, true);
    }

    /** What the steps of one tap do to the counts and to the history. */
    lemma UseFacts(before: Saved, first: seq<Did>, op: seq<Did>, tried: seq<Did>, permission: Option<Outcome<bool>>)
      requires UseSteps(first, permission) && Real(before, op)
      requires op == first || (|first| == 1 && op == first + [DidLaunch] + tried)
      requires tried != [] ==>
        |tried| == 1 && tried[0].Tried? && tried[0].expected == PermissionPending && tried[0].consent == PermissionDeclined
      ensures Count(op, DidActivate) == (if |first| == 2 then 1 else 0) && Count(op, DidLaunch) == if op == first then 0 else 1
      ensures op != first && first[0].won && permission == Some(Done(false)) ==>
        && Meaning(before.memory) == Eligible
        && Meaning(Replay(before, op).memory) != Eligible && Meaning(Replay(before, op).file) != Eligible
      ensures |first| == 2 ==>
        && Meaning(before.memory) == Eligible && permission == Some(Done(true))
        && Meaning(Replay(before, op).memory) == Meaning(Replay(before, op).file) == ActivationAttempted
    {
      hide UseSteps, Count, Replay, Real, Careful, IsClaim;
      NamesRead(ActivationAttempted);
      NamesRead(PermissionPending);
      NamesRead(PermissionDeclined);
      StartsEmpty(before);
      if first != [] {
        FirstClaim(first, permission);
        MoreDone(before, [], first[0]);
        assert [] + [first[0]] == [first[0]];
        if op != first {
          assert first == [first[0]] && op == [first[0], DidLaunch] + tried;
          MoreDone(before, [first[0]], DidLaunch);
          assert [first[0]] + [DidLaunch] == [first[0], DidLaunch];
          if tried != [] {
            assert tried == [tried[0]];
            MoreDone(before, [first[0], DidLaunch], tried[0]);
          } else {
            assert op == [first[0], DidLaunch];
          }
        } else if |first| == 2 {
          assert op == [first[0]] + [first[1]];
          MoreDone(before, [first[0]], first[1]);
        }
      }
    }

    lemma StartsEmpty(before: Saved)
      ensures Replay(before, []) == before && Count([], DidActivate) == Count([], DidLaunch) == 0
    {}

    lemma FirstClaim(first: seq<Did>, permission: Option<Outcome<bool>>)
      requires UseSteps(first, permission)
      ensures first != [] ==>
        && first == (if |first| == 2 then [first[0], DidActivate] else [first[0]]) && first[0].Tried?
        && first[0].expected == Eligible && permission.Some? && permission.value.Done?
        && first[0].consent == (if permission.value.value then ActivationAttempted else PermissionPending)
        && (|first| == 2 <==> first[0].won && permission.value.value)
        && (first[0].won && !permission.value.value ==> WonJustBefore(first, |first|, PermissionPending))
    {}

    // ---- onPermissionResult ----

    /** The claim that consumes the pending history, and the activation it allowed. */
    predicate ResultSteps(op: seq<Did>, granted: bool, permission: Option<Outcome<bool>>) {
      op != [] ==>
        && op[0].Tried? && op[0].expected == PermissionPending
        && op[0].consent == (if granted then ActivationAttempted else PermissionDeclined)
        && |op| <= 2
        && (|op| == 2 ==> op[0].won && op[1] == DidActivate && granted && permission == Some(Done(true)))
    }

    /** With the attempt won, a look that finds the face asks for the permission again. */
    function Permission(k: nat, granted: bool): Option<Outcome<bool>> {
      if granted && client.Visible(k, false) && client.Faces(k) != [] then Some(client.script(k + 4).flag) else None
    }

    /** The stored pending marker is consumed before anything is read or activated. */
    method Resolve(granted: bool) returns (r: Outcome<()>, ghost permission: Option<Outcome<bool>>)
      requires Valid() && Logged() && op == []
      modifies this`state, this`op, consent.preferences, client`calls, client`activations, client`activated
      ensures Valid() && !state.awaitingPermission && Logged() && ResultSteps(op, granted, permission)
      ensures |op| == 2 ==>
        state.status == Installed && state.manual == Some(ActivationUnavailable) && (r.Threw? ==> r.why == Cancellation)
      ensures op != [] <==> Meaning(old(consent.preferences.memory)) == PermissionPending && !client.Cancelled(old(client.calls))
      ensures op != [] ==>
        op[0].commit == consent.preferences.outcomes(old(consent.preferences.commits)) && op[0].won == op[0].commit.Kept?
      ensures permission == if op != [] && op[0].won then Permission(old(client.calls) + 1, granted) else None
      ensures |op| == 2 <==> permission == Some(Done(true))
      ensures client.activated == old(client.activated) + if |op| == 2 then [client.Faces(old(client.calls) + 1)[0].slot] else []
      ensures op != [] && !op[0].won ==> state.status == CheckFailed
      ensures r.Done? && op != [] && (!op[0].won || client.Visible(old(client.calls) + 1, false)) ==>
        state.manual == Some(if granted then ActivationUnavailable else PermissionWasDeclined) && !state.useAvailable
    {
      permission := None;
      hide Careful, Real, Replay, Count, Claim, Meaning, ResultSteps, Permission, Platform.Fails, Platform.Shown, Platform.Visible,
        Matching;
      assert ResultSteps([], granted, None) by { NoSteps(granted); }
      state := state.(awaitingPermission := false);
      r := Suspend();
      if r.Threw? { return; }
      var current := consent.Read();
      if current == PermissionPending {
        r, permission := Consume(granted);
        if r.Threw? { return; }
      }
      r := Suspend();
    }

    lemma NoSteps(granted: bool)
      ensures ResultSteps([], granted, None)
    {}

    /** The pending history is spent, and only what it was spent on may follow. */
    method Consume(granted: bool) returns (r: Outcome<()>, ghost permission: Option<Outcome<bool>>)
      requires Valid() && Logged() && op == [] && !state.awaitingPermission
      requires Meaning(consent.preferences.memory) == PermissionPending
      modifies this`state, this`op, consent.preferences, client`calls, client`activations, client`activated
      ensures Valid() && !state.awaitingPermission && Logged() && op != [] && ResultSteps(op, granted, permission)
      ensures |op| == 2 ==>
        state.status == Installed && state.manual == Some(ActivationUnavailable) && (r.Threw? ==> r.why == Cancellation)
      ensures op[0].commit == consent.preferences.outcomes(old(consent.preferences.commits)) && op[0].won == op[0].commit.Kept?
      ensures permission == if op[0].won then Permission(old(client.calls), granted) else None
      ensures |op| == 2 <==> permission == Some(Done(true))
      ensures client.activated == old(client.activated) + if |op| == 2 then [client.Faces(old(client.calls))[0].slot] else []
      ensures !op[0].won ==> state.status == CheckFailed && r.Done?
      ensures r.Done? && (!op[0].won || client.Visible(old(client.calls), false)) ==>
        state.manual == Some(if granted then ActivationUnavailable else PermissionWasDeclined) && !state.useAvailable
    {
      r, permission := Done(()), None;
      hide Careful, Real, Replay, Count, Claim, Meaning, Platform.Fails, Platform.Shown, Matching;
      var history := if granted then ActivationAttempted else PermissionDeclined;
      var saved, _ := ClaimConsent(PermissionPending, history);
      ManualSelection(ManualFor(history).value);
      if saved {
        r, permission := ResolveSaved(granted, history);
      } else {
        state := state.(status := CheckFailed);
      }
    }

    method ResolveSaved(granted: bool, history: Consent)
      returns (r: Outcome<()>, ghost permission: Option<Outcome<bool>>)
      requires Valid() && !state.awaitingPermission && Logged()
      requires history == if granted then ActivationAttempted else PermissionDeclined
      requires WonJustBefore(op, |op|, history)
      modifies this`state, this`op, client`calls, client`activations, client`activated
      ensures Valid() && !state.awaitingPermission && Logged()
      ensures op == old(op) || op == old(op) + [DidActivate]
      ensures op != old(op) ==>
        && granted && permission == Some(Done(true)) && state.status == Installed && state.manual == Some(ActivationUnavailable)
        && (r.Threw? ==> r.why == Cancellation)
      ensures permission == Permission(old(client.calls), granted)
      ensures op != old(op) <==> permission == Some(Done(true))
      ensures client.activated == old(client.activated)
            + if permission == Some(Done(true)) then [client.Faces(old(client.calls))[0].slot] else []
      ensures r.Done? && client.Visible(old(client.calls), false) ==> state.manual == ManualFor(history) && !state.useAvailable
    {
      permission := None;
      hide Careful, Real, Replay, Count, Claim, Meaning, Platform.Fails, Matching;
      var seen := Look(false);
      if seen.Threw? { return Threw(seen.why), None; }
      if seen.value.Some? {
        ManualSelection(ManualFor(history).value);
        if granted && seen.value.value.installed.Some? {
          var permitted := client.Call();
          permission := Some(permitted.flag);
          if permitted.flag.Threw? { return Threw(permitted.flag.why), permission; }
          if permitted.flag.value {
            var done := Activate(seen.value.value.installed.value);
            if done.Threw? { return Threw(done.why), permission; }
          }
        }
      }
      r := Suspend();
    }

    /** Resolves the persisted action without ever launching again; nothing pending, nothing done. */
    method OnPermissionResult(granted: bool) returns (ghost permission: Option<Outcome<bool>>)
      requires AtRest()
      modifies this, consent.preferences, client`calls, client`activations, client`activated
      ensures AtRest() && !state.awaitingPermission && Logged() && began == old(Snapshot())
      ensures client.activations <= old(client.activations) + 1
      ensures client.activations > old(client.activations) ==>
        && granted && permission == Some(Done(true)) && Meaning(old(consent.preferences.memory)) == PermissionPending
        && Meaning(consent.preferences.memory) == Meaning(consent.preferences.file) == ActivationAttempted
        && state == State(Installed, false, state.updateAvailable, false, Some(ActivationUnavailable), false)
      ensures Meaning(old(consent.preferences.memory)) != PermissionPending ==>
        consent.preferences.Now() == old(consent.preferences.Now())
      ensures op != [] <==> Meaning(old(consent.preferences.memory)) == PermissionPending && !client.Cancelled(old(client.calls))
      ensures op != [] ==> var commit := consent.preferences.outcomes(old(consent.preferences.commits));
        && op[0] == Tried(PermissionPending, if granted then ActivationAttempted else PermissionDeclined, commit, commit.Kept?)
        && permission == if commit.Kept? then Permission(old(client.calls) + 1, granted) else None
      ensures op == [] ==> permission.None?
      ensures op != [] && !op[0].won ==> state.status == CheckFailed
      ensures client.activations == old(client.activations) + if permission == Some(Done(true)) then 1 else 0
      ensures client.activated == old(client.activated)
            + if permission == Some(Done(true)) then [client.Faces(old(client.calls) + 1)[0].slot] else []
    {
      permission := None;
      hide Careful, Real, Replay, Count, Claim, Meaning, Platform.Fails, Platform.Shown, Matching;
      var entered := Enter(true);
      if !entered { return; }
      var outcome;
      outcome, permission := Resolve(granted);
      ResultFacts(began.saved, op, granted, permission);
      Leave(outcome, CheckFailed, true);
    }

    lemma ResultFacts(before: Saved, op: seq<Did>, granted: bool, permission: Option<Outcome<bool>>)
      requires ResultSteps(op, granted, permission) && Real(before, op)
      ensures Count(op, DidActivate) == (if |op| == 2 then 1 else 0) && Count(op, DidLaunch) == 0
      ensures op == [] ==> Replay(before, op) == before
      ensures |op| == 2 ==> Meaning(Replay(before, op).memory) == Meaning(Replay(before, op).file) == ActivationAttempted
    {
      StartsEmpty(before);
      NamesRead(ActivationAttempted);
      if op != [] {
        hide Count, Replay, Real, Careful, IsClaim;
        MoreDone(before, [], op[0]);
        assert [] + [op[0]] == [op[0]];
        if |op| == 2 {
          MoreDone(before, [op[0]], op[1]);
          assert op == [op[0]] + [op[1]];
        } else {
          assert op == [op[0]];
        }
      }
    }
  }

  // ---- Any number of controllers and processes ----

  datatype Request = CheckTap | InstallTap | UpdateTap | UseTap | PermissionAnswer(granted: bool)

  /** One process: how many controllers it creates, and which of them is asked what. */
  datatype Process = Process(controllers: nat, requests: seq<(nat, Request)>)

  method Serve(c: WatchFaceController, request: Request)
    requires c.AtRest()
    modifies c, c.consent.preferences, c.client`calls, c.client`activations, c.client`activated, c.client`launches
    ensures c.AtRest() && c.Logged() && c.began == old(c.Snapshot())
  {
    match request {
      case CheckTap => c.Check();
      case InstallTap => var _ := c.Install();
      case UpdateTap => var _ := c.Update();
      case UseTap => var _ := c.UseWatchFace();
      case PermissionAnswer(granted) => var _ := c.OnPermissionResult(granted);
    }
  }

  /** The effects and the history are those of a permitted run from the state `before`. */
  predicate Follows(before: Before, run: seq<Step>, now: Before) {
    && Permitted(From(before.saved), run)
    && var t := Run(From(before.saved), run);
       now == Before(t.saved, before.activations + t.activations, before.launches + t.launches)
  }

  ghost function SharedNow(preferences: Preferences, client: Platform): Before
    reads preferences, client`activations, client`launches
  {
    Before(preferences.Now(), client.activations, client.launches)
  }

  lemma OperationFollows(before: Before, run: seq<Step>, began: Before, c: nat, op: seq<Did>)
    requires Follows(before, run, began) && Careful(op) && Real(began.saved, op)
    ensures Follows(before, run + StepsOf(c, op) + [Ends(c)],
                    Before(Replay(began.saved, op), began.activations + Count(op, DidActivate), began.launches + Count(op, DidLaunch)))
  {
    hide Run, Permitted, Careful, Real, Replay, Count, StepsOf;
    var s := From(before.saved);
    OperationRuns(Run(s, run), c, op);
    RunJoins(s, run, StepsOf(c, op));
    RunJoins(s, run + StepsOf(c, op), [Ends(c)]);
    RunOne(Run(s, run + StepsOf(c, op)), Ends(c));
  }

  lemma RestartFollows(before: Before, run: seq<Step>, now: Before)
    requires Follows(before, run, now)
    ensures Follows(before, run + [Restarts], now.(saved := Saved(now.saved.file, now.saved.file)))
  {
    hide Run, Permitted;
    RunJoins(From(before.saved), run, [Restarts]);
    RunOne(Run(From(before.saved), run), Restarts);
  }

  /** Processes one after another, each with its controllers asked anything in any order: what
      they did together is a permitted run, so at most one activation and one launch. */
  method Live(preferences: Preferences, client: Platform, processes: seq<Process>) returns (ghost run: seq<Step>)
    modifies preferences, client
    ensures Follows(old(SharedNow(preferences, client)), run, SharedNow(preferences, client))
    ensures client.activations <= old(client.activations) + 1 && client.launches <= old(client.launches) + 1
    ensures client.activations > old(client.activations) ==>
      Meaning(preferences.memory) == Meaning(preferences.file) == ActivationAttempted
  {
    hide Follows, Careful, Real, Replay, Count, Meaning;
    ghost var before := SharedNow(preferences, client);
    run := [];
    assert Follows(before, run, before) by { NothingFollows(before); }
    for i := 0 to |processes|
      invariant Follows(before, run, SharedNow(preferences, client))
    {
      RestartFollows(before, run, SharedNow(preferences, client));
      preferences.Restart();
      run := run + [Restarts];
      run := OneProcess(preferences, client, processes[i], before, run);
    }
    FollowersAreOneShot(before, run, SharedNow(preferences, client));
  }

  method OneProcess(preferences: Preferences, client: Platform, process: Process, ghost before: Before,
      ghost earlier: seq<Step>) returns (ghost run: seq<Step>)
    requires Follows(before, earlier, SharedNow(preferences, client))
    modifies preferences, client
    ensures Follows(before, run, SharedNow(preferences, client))
  {
    hide Follows, Careful, Real, Replay, Count, Meaning;
    run := earlier;
    var store := new WatchFaceConsentStore(preferences);
    var controllers: seq<WatchFaceController> := [];
    for i := 0 to process.controllers
      invariant forall c :: c in controllers ==> c.AtRest() && c.client == client && c.consent == store && fresh(c)
      invariant Follows(before, run, SharedNow(preferences, client))
    {
      var c := new WatchFaceController(client, store);
      controllers := controllers + [c];
    }
    for i := 0 to |process.requests|
      invariant forall c :: c in controllers ==> c.AtRest() && c.client == client && c.consent == store && fresh(c)
      invariant Follows(before, run, SharedNow(preferences, client))
    {
      var (k, request) := process.requests[i];
      if k < |controllers| {
        assert controllers[k] in controllers;
        ghost var began := SharedNow(preferences, client);
        Serve(controllers[k], request);
        ghost var op := controllers[k].op;
        OperationFollows(before, run, began, k, op);
        run := run + StepsOf(k, op) + [Ends(k)];
      }
    }
  }

  lemma NothingFollows(before: Before)
    ensures Follows(before, [], before)
  {}

  lemma FollowersAreOneShot(before: Before, run: seq<Step>, now: Before)
    requires Follows(before, run, now)
    ensures now.activations <= before.activations + 1 && now.launches <= before.launches + 1
    ensures now.activations > before.activations ==> Meaning(now.saved.memory) == Meaning(now.saved.file) == ActivationAttempted
  {
    hide Run, Permitted, Meaning;
    OneShot(before.saved, run);
  }
}
