/** The migration of legacy API-key preferences: one asynchronous activation
    that may be disposed at every await and inside every read. */
module AuthMigration {
  import opened Common

  type Name = string

  datatype Entry = Entry(name: Name, value: string)

  /** What reading a preference gives; `Bad` is anything but a usable string. */
  datatype Read = Absent | Text(value: string) | Bad

  datatype Scan = Valid(entries: seq<Entry>) | Invalid(name: Name) | Conflict(names: seq<Name>)

  const LEGACY_PREFERENCES: seq<Name> := ["ai-features.codex.apiKey", "ai-features.openai.apiKey", "openai.apiKey"]

  function Names(entries: seq<Entry>): (names: seq<Name>)
    ensures |names| == |entries| && forall k :: 0 <= k < |names| ==> names[k] == entries[k].name
  {
    seq(|entries|, k requires 0 <= k < |entries| => entries[k].name)
  }

  /** The preferences that are set, in order. */
  function Found(names: seq<Name>, answers: seq<Read>): seq<Entry>
    requires |names| == |answers|
  {
    if names == [] then []
    else
      var earlier := Found(names[..|names| - 1], answers[..|names| - 1]);
      if Last(answers).Text? then earlier + [Entry(Last(names), Last(answers).value)] else earlier
  }

  /** The entries stand at these places, and nothing readable stands elsewhere. */
  ghost predicate StandAt(entries: seq<Entry>, names: seq<Name>, answers: seq<Read>, places: seq<nat>)
    requires |names| == |answers|
  {
    && |places| == |entries|
    && (forall i, j :: 0 <= i < j < |places| ==> places[i] < places[j])
    && (forall i :: 0 <= i < |places| ==>
          places[i] < |names| && entries[i].name == names[places[i]] && answers[places[i]] == Text(entries[i].value))
    && (forall k :: 0 <= k < |names| && answers[k].Text? ==> k in places)
  }

  lemma OneMoreRead(entries: seq<Entry>, names: seq<Name>, answers: seq<Read>, places: seq<nat>, name: Name, read: Read)
    requires |names| == |answers| && StandAt(entries, names, answers, places)
    ensures !read.Text? ==> StandAt(entries, names + [name], answers + [read], places)
    ensures read.Text? ==>
      StandAt(entries + [Entry(name, read.value)], names + [name], answers + [read], places + [|names|])
  {
    var all := places + [|names|];
    assert forall i :: 0 <= i < |places| ==> all[i] == places[i];
    assert |names| in all && forall k :: k in places ==> k in all;
  }

  /** The entries are the readable preferences, with their names and values, in
      order and completely. */
  lemma {:induction false} FoundInPlace(names: seq<Name>, answers: seq<Read>) returns (places: seq<nat>)
    requires |names| == |answers|
    ensures StandAt(Found(names, answers), names, answers, places)
  {
    if names == [] {
      places := [];
    } else {
      var names', answers' := names[..|names| - 1], answers[..|names| - 1];
      places := FoundInPlace(names', answers');
      OneMoreRead(Found(names', answers'), names', answers', places, Last(names), Last(answers));
      assert names' + [Last(names)] == names && answers' + [Last(answers)] == answers;
      if Last(answers).Text? {
        places := places + [|names| - 1];
      }
    }
  }

  predicate Agree(entries: seq<Entry>) {
    forall i, j :: 0 <= i < j < |entries| ==> entries[i].value == entries[j].value
  }

  /** An unusable preference is reported first; then the keys must agree. */
  method ReadLegacyPreferences(names: seq<Name>, answers: seq<Read>) returns (scan: Scan)
    requires |names| == |answers|
    ensures scan.Invalid? <==> Bad in answers
    ensures scan.Invalid? ==>
      exists k :: 0 <= k < |names| && names[k] == scan.name && answers[k].Bad? && Bad !in answers[..k]
    ensures !scan.Invalid? ==> (scan.Valid? <==> Agree(Found(names, answers)))
    ensures scan.Valid? ==> scan.entries == Found(names, answers)
    ensures scan.Conflict? ==> scan.names == Names(Found(names, answers))
  {
    var entries: seq<Entry> := [];
    var values: set<string> := {};
    for k := 0 to |names|
      invariant Bad !in answers[..k]
      invariant entries == Found(names[..k], answers[..k])
      invariant values == set e <- entries :: e.value
    {
      assert names[..k + 1][..k] == names[..k] && answers[..k + 1][..k] == answers[..k];
      if answers[k].Bad? {
        return Invalid(names[k]);
      }
      if answers[k].Text? {
        entries := entries + [Entry(names[k], answers[k].value)];
        values := values + {answers[k].value};
      }
    }
    assert names[..|names|] == names && answers[..|names|] == answers;
    SizeTellsAgreement(entries, values);
    return if |values| > 1 then Conflict(Names(entries)) else Valid(entries);
  }

  lemma SizeTellsAgreement(entries: seq<Entry>, values: set<string>)
    requires values == set e <- entries :: e.value
    ensures |values| <= 1 <==> Agree(entries)
  {
    if Agree(entries) && entries != [] {
      assert values == {entries[0].value};
    }
    if |values| <= 1 {
      forall i, j | 0 <= i < j < |entries|
        ensures entries[i].value == entries[j].value
      {
        assert entries[i] in entries && entries[j] in entries;
        var v, w := entries[i].value, entries[j].value;
        assert {v, w} <= values;
        if v != w {
          assert |{v, w}| == 2;
          SubsetIsSmaller({v, w}, values);
        }
      }
    }
  }

  lemma {:induction false} SubsetIsSmaller(a: set<string>, b: set<string>)
    requires a <= b
    ensures |a| <= |b|
  {
    if a != {} {
      var x :| x in a;
      SubsetIsSmaller(a - {x}, b - {x});
    }
  }

  // The controller as a value.

  datatype State = Inactive | Activating | Ready | Migrated | Manual | RecoveryRequired

  /** Where the activation is suspended. */
  datatype Phase =
    | NotStarted
    | AwaitActivation
    | AwaitAccount
    | AwaitConsent
    | AwaitLogin
    | AwaitStatus
    | AwaitRemoval(k: nat)
    | Settled

  /** What has happened that the user would care about. */
  datatype Event =
    | Consented
    | Confirmed
    | RemovalStarted(name: Name)
    | Removed(name: Name)
    | Kept(name: Name)
    | Unknown(name: Name)
    | ReadBack(name: Name, read: Read)
    | Disposal

  datatype Controller = Controller(
    state: State,
    phase: Phase,
    activationGeneration: nat,
    generation: nat,
    prompted: bool,
    disposed: bool,
    sources: Option<seq<Name>>,
    entries: seq<Entry>,
    removedCount: nat,
    removalInFlight: nat,
    removalUncertain: bool,
    log: seq<Event>)

  ghost const NEW_CONTROLLER := Controller(Inactive, NotStarted, 0, 0, false, false, None, [], 0, 0, false, [])

  /** A read, and whether the controller is disposed in the course of it. */
  datatype Answer = Answer(read: Read, disposes: bool)

  ghost predicate IsCurrent(c: Controller) {
    !c.disposed && c.generation == c.activationGeneration
  }

  ghost predicate IsPartial(c: Controller) {
    c.removedCount > 0 || c.removalInFlight > 0 || c.removalUncertain
  }

  ghost function Canceled(c: Controller): Controller {
    var state := if IsPartial(c) || c.sources.None? then RecoveryRequired else Manual;
    if c.state.Activating? || (c.state.Manual? && state.RecoveryRequired?) then c.(state := state) else c
  }

  ghost function Finished(c: Controller, state: State): Controller {
    if IsCurrent(c) then c.(state := state, phase := Settled) else Canceled(c).(phase := Settled)
  }

  /** The activation ends: canceled, or in this state when still current. */
  ghost function Disposed(c: Controller): Controller {
    if c.disposed then c
    else
      var d := c.(disposed := true, activationGeneration := c.activationGeneration + 1, log := c.log + [Disposal]);
      if d.state.Activating? then Canceled(d) else d
  }

  ghost function DisposedIf(c: Controller, disposes: bool): Controller {
    if disposes then Disposed(c) else c
  }

  ghost function Started(c: Controller, scan: Scan, disposes: bool): Controller {
    if c.disposed || !c.state.Inactive? then c
    else
      var started := c.(state := Activating, activationGeneration := c.activationGeneration + 1,
                        generation := c.activationGeneration + 1);
      Scanned(DisposedIf(started, disposes), scan)
  }

  ghost function Scanned(c: Controller, scan: Scan): Controller {
    if !scan.Valid? then Finished(c, Manual)
    else if scan.entries == [] then c.(phase := AwaitActivation)
    else if c.prompted then Finished(c.(sources := Some(Names(scan.entries))), Manual)
    else c.(sources := Some(Names(scan.entries)), entries := scan.entries, prompted := true, phase := AwaitConsent)
  }

  ghost function Activated(c: Controller, ok: bool): Controller {
    if ok && IsCurrent(c) then c.(phase := AwaitAccount) else Finished(c, RecoveryRequired)
  }

  ghost function AccountKnown(c: Controller, ok: bool): Controller {
    Finished(c, if ok then Ready else RecoveryRequired)
  }

  /** `None` stands for a prompt that fails. */
  ghost function Asked(c: Controller, accepted: Option<bool>): Controller {
    if IsCurrent(c) && accepted == Some(true) then c.(phase := AwaitLogin, log := c.log + [Consented])
    else Finished(c, Manual)
  }

  ghost function LoggedIn(c: Controller, ok: bool): Controller {
    if ok && IsCurrent(c) then c.(phase := AwaitStatus) else Finished(c, RecoveryRequired)
  }

  /** `apiKey` tells whether the status is authenticated with an API key. */
  ghost function StatusKnown(c: Controller, apiKey: Option<bool>, answers: seq<Answer>): Controller
    requires |answers| == |c.entries|
  {
    if IsCurrent(c) && apiKey == Some(true)
    then Removing(c.(log := c.log + [Confirmed]), 0, answers)
    else Finished(c, RecoveryRequired)
  }

  /** The head of the removal loop, up to the next await. */
  ghost function Removing(c: Controller, k: nat, answers: seq<Answer>): Controller
    requires k <= |c.entries| == |answers|
  {
    if k == |c.entries| then Verifying(c, 0, answers)
    else if !IsCurrent(c) then Finished(c, RecoveryRequired)
    else
      var read := DisposedIf(c, answers[k].disposes);
      if !IsCurrent(read) || answers[k].read != Text(c.entries[k].value) then Finished(read, RecoveryRequired)
      else
        c.(removalInFlight := c.removalInFlight + 1, phase := AwaitRemoval(k),
           log := c.log + [RemovalStarted(c.entries[k].name)])
  }

  ghost predicate Removes(c: Controller) {
    c.phase.AwaitRemoval? && c.phase.k < |c.entries| && c.removalInFlight > 0
  }

  /** The books once the outcome is in; `None` stands for an unknown outcome. */
  ghost function Booked(c: Controller, removed: Option<bool>): Controller
    requires Removes(c)
  {
    var name := c.entries[c.phase.k].name;
    c.(removalInFlight := c.removalInFlight - 1,
       removedCount := c.removedCount + if removed == Some(true) then 1 else 0,
       removalUncertain := c.removalUncertain || (removed.None? && !IsCurrent(c)),
       log := c.log + [if removed.None? then Unknown(name) else if removed.value then Removed(name) else Kept(name)])
  }

  ghost function RemovalEnded(c: Controller, removed: Option<bool>, answers: seq<Answer>): Controller
    requires Removes(c) && |c.entries| == |answers|
  {
    if removed == Some(true) && IsCurrent(c) then Removing(Booked(c, removed), c.phase.k + 1, answers)
    else Finished(Booked(c, removed), RecoveryRequired)
  }

  /** The verification loop: every removed preference is read back. */
  ghost function Verifying(c: Controller, k: nat, answers: seq<Answer>): Controller
    requires k <= |c.entries| == |answers|
    decreases |c.entries| - k
  {
    if k == |c.entries| then Finished(c, Migrated)
    else if !IsCurrent(c) then Finished(c, RecoveryRequired)
    else
      var read := DisposedIf(c.(log := c.log + [ReadBack(c.entries[k].name, answers[k].read)]), answers[k].disposes);
      if !IsCurrent(read) || !answers[k].read.Absent? then Finished(read, RecoveryRequired)
      else Verifying(read, k + 1, answers)
  }

  // The controller as an object.

  class RideCodexAuthController {
    var state: State
    var phase: Phase
    var activationGeneration: nat
    var generation: nat
    var prompted: bool
    var disposed: bool
    var migrationSources: Option<seq<Name>>
    var entries: seq<Entry>
    var removedPreferenceCount: nat
    var removalInFlight: nat
    var removalOutcomeUncertain: bool
    ghost var log: seq<Event>

    ghost function Model(): Controller
      reads this
    {
      Controller(state, phase, activationGeneration, generation, prompted, disposed, migrationSources, entries,
                 removedPreferenceCount, removalInFlight, removalOutcomeUncertain, log)
    }

    constructor ()
      ensures Model() == NEW_CONTROLLER
    {
      state, phase, activationGeneration, generation := Inactive, NotStarted, 0, 0;
      prompted, disposed, migrationSources, entries := false, false, None, [];
      removedPreferenceCount, removalInFlight, removalOutcomeUncertain, log := 0, 0, false, [];
    }

    predicate Current()
      reads this
    {
      !disposed && generation == activationGeneration
    }

    method CancelSnapshot()
      modifies this`state
      ensures Model() == Canceled(old(Model()))
    {
      var partial := removedPreferenceCount > 0 || removalInFlight > 0 || removalOutcomeUncertain;
      var canceled := if partial || migrationSources.None? then RecoveryRequired else Manual;
      if state.Activating? || (state.Manual? && canceled.RecoveryRequired?) {
        state := canceled;
      }
    }

    method Finish(result: State)
      modifies this`state, this`phase
      ensures Model() == Finished(old(Model()), result)
    {
      if Current() {
        state := result;
      } else {
        CancelSnapshot();
      }
      phase := Settled;
    }

    method Dispose()
      modifies this
      ensures Model() == Disposed(old(Model()))
    {
      if disposed {
        return;
      }
      disposed := true;
      activationGeneration := activationGeneration + 1;
      log := log + [Disposal];
      if state.Activating? {
        CancelSnapshot();
      }
    }

    method ReadPreference(answer: Answer) returns (read: Read)
      modifies this
      ensures Model() == DisposedIf(old(Model()), answer.disposes) && read == answer.read
    {
      if answer.disposes {
        Dispose();
      }
      return answer.read;
    }

    /** `activate` up to its first await. A call that does not start the
        activation changes nothing. */
    method Activate(scan: Scan, disposes: bool)
      modifies this
      ensures Model() == Started(old(Model()), scan, disposes)
    {
      if disposed || !state.Inactive? {
        return;
      }
      state := Activating;
      activationGeneration := activationGeneration + 1;
      generation := activationGeneration;
      if disposes {
        Dispose();
      }
      UseScan(scan);
    }

    method UseScan(scan: Scan)
      modifies this
      ensures Model() == Scanned(old(Model()), scan)
    {
      if !scan.Valid? {
        Finish(Manual);
        return;
      }
      if scan.entries == [] {
        phase := AwaitActivation;
        return;
      }
      migrationSources := Some(Names(scan.entries));
      if prompted {
        Finish(Manual);
        return;
      }
      prompted := true;
      entries := scan.entries;
      phase := AwaitConsent;
    }

    method AnswerActivation(ok: bool)
      modifies this
      ensures Model() == Activated(old(Model()), ok)
    {
      if ok && Current() {
        phase := AwaitAccount;
      } else {
        Finish(RecoveryRequired);
      }
    }

    method AnswerAccount(ok: bool)
      modifies this
      ensures Model() == AccountKnown(old(Model()), ok)
    {
      Finish(if ok then Ready else RecoveryRequired);
    }

    method AnswerPrompt(accepted: Option<bool>)
      modifies this
      ensures Model() == Asked(old(Model()), accepted)
    {
      if !Current() || accepted != Some(true) {
        Finish(Manual);
        return;
      }
      phase := AwaitLogin;
      log := log + [Consented];
    }

    method AnswerLogin(ok: bool)
      modifies this
      ensures Model() == LoggedIn(old(Model()), ok)
    {
      if ok && Current() {
        phase := AwaitStatus;
      } else {
        Finish(RecoveryRequired);
      }
    }

    method AnswerStatus(apiKey: Option<bool>, answers: seq<Answer>)
      requires |answers| == |entries|
      modifies this
      ensures Model() == StatusKnown(old(Model()), apiKey, answers)
    {
      if !Current() || apiKey != Some(true) {
        Finish(RecoveryRequired);
        return;
      }
      log := log + [Confirmed];
      ContinueRemoving(0, answers);
    }

    /** The first iteration that is left of the removal loop, or the
        verification when none is. */
    method ContinueRemoving(k: nat, answers: seq<Answer>)
      requires k <= |entries| == |answers|
      modifies this
      ensures Model() == Removing(old(Model()), k, answers)
    {
      if k == |entries| {
        Verify(answers);
        return;
      }
      if !Current() {
        Finish(RecoveryRequired);
        return;
      }
      var value := ReadPreference(answers[k]);
      if !Current() || value != Text(entries[k].value) {
        Finish(RecoveryRequired);
        return;
      }
      removalInFlight := removalInFlight + 1;
      log := log + [RemovalStarted(entries[k].name)];
      phase := AwaitRemoval(k);
    }

    method BookRemoval(removed: Option<bool>)
      requires Removes(Model())
      modifies this
      ensures Model() == Booked(old(Model()), removed)
    {
      var name := entries[phase.k].name;
      removalInFlight := removalInFlight - 1;
      if removed.None? {
        log := log + [Unknown(name)];
        if !Current() {
          removalOutcomeUncertain := true;
        }
      } else if removed.value {
        log := log + [Removed(name)];
        removedPreferenceCount := removedPreferenceCount + 1;
      } else {
        log := log + [Kept(name)];
      }
    }

    method EndRemoval(removed: Option<bool>, answers: seq<Answer>)
      requires Removes(Model()) && |entries| == |answers|
      modifies this
      ensures Model() == RemovalEnded(old(Model()), removed, answers)
    {
      var k := phase.k;
      BookRemoval(removed);
      if removed == Some(true) && Current() {
        ContinueRemoving(k + 1, answers);
      } else {
        Finish(RecoveryRequired);
      }
    }

    method Verify(answers: seq<Answer>)
      requires |answers| == |entries|
      modifies this
      ensures Model() == Verifying(old(Model()), 0, answers)
    {
      ghost var start := Model();
      var k := 0;
      while k < |entries|
        invariant 0 <= k <= |entries| == |answers|
        invariant Verifying(Model(), k, answers) == Verifying(start, 0, answers)
      {
        if !Current() {
          Finish(RecoveryRequired);
          return;
        }
        log := log + [ReadBack(entries[k].name, answers[k].read)];
        var value := ReadPreference(answers[k]);
        if !Current() || !value.Absent? {
          Finish(RecoveryRequired);
          return;
        }
        k := k + 1;
      }
      Finish(Migrated);
    }
  }
}
