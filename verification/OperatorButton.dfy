/** The stand's own button: debounced presses become commands, and an accepted command may
    be followed by one more. */
module OperatorButton {
  import opened Stand
  import opened Options
  import opened Protocol
  import RS = RobotService
  import SI = ServiceInvariants
  import SW = ServiceWorld
  import SC = ServiceCube
  import SS = ServiceSafety

  datatype FollowUp = NoFollowUp | RecoverAfterAbort | AutoAfterGrip(operationId: nat)

  /** What the service answered to a command of the button. */
  datatype CommandOutcome = AcceptedAs(operationId: Option<nat>) | RejectedWith(reason: RS.RejectionReason)

  datatype Button = Button(rawPressed: Option<bool>, rawChangedAt: nat, stablePressed: bool, followUp: FollowUp)

  /** Time since an earlier instant; an instant that is not earlier counts as now. */
  function Elapsed(now: nat, since: nat): nat {
    if now >= since then now - since else 0
  }

  // ---- debouncing -----------------------------------------------------------------

  /** A press is reported when the input has been pressed for the debounce time and was not
      stably pressed before. */
  predicate PressEvent(b: Button, debounce: nat, pressed: bool, now: nat) {
    b.rawPressed == Some(pressed) && pressed && !b.stablePressed && Elapsed(now, b.rawChangedAt) >= debounce
  }

  function Debounced(b: Button, debounce: nat, pressed: bool, now: nat): Button {
    if b.rawPressed.None? then b.(rawPressed := Some(pressed), stablePressed := pressed, rawChangedAt := now)
    else if pressed != b.rawPressed.value then b.(rawPressed := Some(pressed), rawChangedAt := now)
    else if pressed != b.stablePressed && Elapsed(now, b.rawChangedAt) >= debounce then b.(stablePressed := pressed)
    else b
  }

  // ---- commands -------------------------------------------------------------------

  function CommandForPress(status: StatusSnapshot): RS.LocalCommand {
    if status.operation.Some? || status.controller == Busy then RS.LocalAbort
    else if status.controller == Ready && status.stand.pose.kind == Open then RS.LocalGrip
    else RS.LocalRecover
  }

  /** The command that a waiting follow-up issues, if its moment has come. */
  function FollowUpCommand(f: FollowUp, status: StatusSnapshot): Option<RS.LocalCommand> {
    match f
    case NoFollowUp => None
    case RecoverAfterAbort => if status.controller == Aborted && status.operation.None? then Some(RS.LocalRecover) else None
    case AutoAfterGrip(id) =>
      if status.operation.None? && status.controller == Ready && status.stand.pose.kind == CanonicalPose && status.session.Some?
      then Some(RS.LocalScanSolveExecute(status.session.value)) else None
  }

  /** Whether a follow-up goes on waiting. */
  predicate StillWaiting(f: FollowUp, status: StatusSnapshot) {
    match f
    case NoFollowUp => true
    case RecoverAfterAbort =>
      !(status.controller == Aborted && status.operation.None?)
      && status.controller != Faulted && status.operation.None? && status.controller != Busy
    case AutoAfterGrip(id) =>
      if status.operation.Some? then status.operation.value.id == id else status.controller == Busy
  }

  /** One sample of the daemon: what the input reads, if it can be read, the published
      status, the time, and the service's answer to a command issued now. */
  datatype Sample = Sample(read: Option<bool>, status: StatusSnapshot, now: nat, outcome: CommandOutcome)

  predicate Fires(b: Button, debounce: nat, s: Sample) {
    s.read.Some? && PressEvent(b, debounce, s.read.value, s.now)
  }

  function Polled(b: Button, debounce: nat, s: Sample): (Button, Option<RS.LocalCommand>) {
    if s.read.None? then (b, None)
    else
      var d := Debounced(b, debounce, s.read.value, s.now);
      if Fires(b, debounce, s) then (d.(followUp := NoFollowUp), Some(CommandForPress(s.status)))
      else (if StillWaiting(b.followUp, s.status) then d else d.(followUp := NoFollowUp), FollowUpCommand(b.followUp, s.status))
  }

  function FollowUpOf(command: RS.LocalCommand, outcome: CommandOutcome): FollowUp {
    if command == RS.LocalAbort && outcome.AcceptedAs? then RecoverAfterAbort
    else if command == RS.LocalGrip && outcome.AcceptedAs? && outcome.operationId.Some? then
      AutoAfterGrip(outcome.operationId.value)
    else NoFollowUp
  }

  /** One iteration of the daemon: poll, and report the outcome of the command, if any. */
  function Iterated(b: Button, debounce: nat, s: Sample): Button {
    var (polled, command) := Polled(b, debounce, s);
    if command.None? then polled else polled.(followUp := FollowUpOf(command.value, s.outcome))
  }

  class OperatorButton {
    const debounce: nat
    var rawPressed: Option<bool>
    var rawChangedAt: nat
    var stablePressed: bool
    var followUp: FollowUp

    ghost function Value(): Button
      reads this
    {
      Button(rawPressed, rawChangedAt, stablePressed, followUp)
    }

    constructor (debounce: nat, now: nat)
      ensures Value() == Button(None, now, false, NoFollowUp) && this.debounce == debounce
    {
      this.debounce := debounce;
      rawPressed := None;
      rawChangedAt := now;
      stablePressed := false;
      followUp := NoFollowUp;
    }

    method UpdateDebounce(pressed: bool, now: nat) returns (event: bool)
      modifies this
      ensures Value() == Debounced(old(Value()), debounce, pressed, now)
      ensures event == PressEvent(old(Value()), debounce, pressed, now)
    {
      if rawPressed.None? {
        rawPressed := Some(pressed);
        stablePressed := pressed;
        rawChangedAt := now;
        return false;
      }
      if pressed != rawPressed.value {
        rawPressed := Some(pressed);
        rawChangedAt := now;
        return false;
      }
      if pressed != stablePressed && Elapsed(now, rawChangedAt) >= debounce {
        stablePressed := pressed;
        return pressed;
      }
      event := false;
    }

    /** At most one command per iteration; a failed read changes nothing. */
    method Poll(sample: Sample) returns (command: Option<RS.LocalCommand>)
      modifies this
      ensures (Value(), command) == Polled(old(Value()), debounce, sample)
    {
      if sample.read.None? {
        return None;
      }
      var pressEvent := UpdateDebounce(sample.read.value, sample.now);
      var status := sample.status;
      if pressEvent {
        followUp := NoFollowUp;
        return Some(CommandForPress(status));
      }
      command := None;
      match followUp
      case NoFollowUp =>
      case RecoverAfterAbort =>
        if status.controller == Aborted && status.operation.None? {
          followUp := NoFollowUp;
          command := Some(RS.LocalRecover);
        } else if status.controller == Faulted || status.operation.Some? || status.controller == Busy {
          followUp := NoFollowUp;
        }
      case AutoAfterGrip(id) =>
        if status.operation.Some? {
          if status.operation.value.id != id {
            followUp := NoFollowUp;
          }
        } else if status.controller == Ready && status.stand.pose.kind == CanonicalPose {
          followUp := NoFollowUp;
          command := if status.session.None? then None else Some(RS.LocalScanSolveExecute(status.session.value));
        } else if status.controller != Busy {
          followUp := NoFollowUp;
        }
    }

    method CommandFinished(command: RS.LocalCommand, outcome: CommandOutcome)
      modifies this`followUp
      ensures Value() == old(Value()).(followUp := FollowUpOf(command, outcome))
    {
      match (command, outcome)
      case (LocalAbort, AcceptedAs(_)) => followUp := RecoverAfterAbort;
      case (LocalGrip, AcceptedAs(Some(id))) => followUp := AutoAfterGrip(id);
      case _ => followUp := NoFollowUp;
    }
  }

  // ---- runs -----------------------------------------------------------------------

  function Run(start: nat, debounce: nat, samples: seq<Sample>): Button {
    if samples == [] then Button(None, start, false, NoFollowUp)
    else Iterated(Run(start, debounce, samples[..|samples| - 1]), debounce, samples[|samples| - 1])
  }

  /** Sample `k` reports a press. */
  predicate Fired(start: nat, debounce: nat, samples: seq<Sample>, k: nat) {
    k < |samples| && Fires(Run(start, debounce, samples[..k]), debounce, samples[k])
  }

  predicate Ascending(samples: seq<Sample>) {
    forall i, j :: 0 <= i <= j < |samples| ==> samples[i].now <= samples[j].now
  }

  /** The last sample of a run that reported a press. */
  function LastFired(start: nat, debounce: nat, samples: seq<Sample>): (r: Option<nat>)
    ensures r.Some? ==> r.value < |samples|
  {
    if samples == [] then None
    else if Fired(start, debounce, samples, |samples| - 1) then Some(|samples| - 1)
    else LastFired(start, debounce, samples[..|samples| - 1])
  }

  lemma {:induction false} FiredInPrefix(start: nat, debounce: nat, samples: seq<Sample>, n: nat, k: nat)
    requires k < n <= |samples|
    ensures Fired(start, debounce, samples[..n], k) == Fired(start, debounce, samples, k)
  {
    assert samples[..n][..k] == samples[..k];
  }

  lemma {:induction false} LastFiredFires(start: nat, debounce: nat, samples: seq<Sample>)
    ensures var last := LastFired(start, debounce, samples); last.Some? ==> Fired(start, debounce, samples, last.value)
    decreases |samples|
  {
    hide Fired;
    if samples != [] && !Fired(start, debounce, samples, |samples| - 1) {
      var before := samples[..|samples| - 1];
      LastFiredFires(start, debounce, before);
      var last := LastFired(start, debounce, before);
      if last.Some? {
        FiredIsIndex(start, debounce, before, last.value);
        FiredInPrefix(start, debounce, samples, |before|, last.value);
      }
    }
  }

  lemma {:induction false} FiredIsIndex(start: nat, debounce: nat, samples: seq<Sample>, k: nat)
    requires Fired(start, debounce, samples, k)
    ensures k < |samples|
  {
  }

  lemma {:induction false} LastFiredIsLast(start: nat, debounce: nat, samples: seq<Sample>, k: nat)
    requires Fired(start, debounce, samples, k)
    ensures var last := LastFired(start, debounce, samples); last.Some? && k <= last.value
    decreases |samples|
  {
    hide Fired;
    FiredIsIndex(start, debounce, samples, k);
    if !Fired(start, debounce, samples, |samples| - 1) {
      FiredInPrefix(start, debounce, samples, |samples| - 1, k);
      LastFiredIsLast(start, debounce, samples[..|samples| - 1], k);
    }
  }

  /** After a press the input must be stably released before it can be stably pressed. */
  ghost predicate Spaced(b: Button, debounce: nat, pressAt: nat, now: nat) {
    && b.rawPressed.Some? && b.rawChangedAt <= now && pressAt <= now
    && (b.stablePressed && b.rawPressed == Some(false) ==> b.rawChangedAt >= pressAt)
    && (!b.stablePressed ==> now >= pressAt + debounce)
    && (!b.stablePressed && b.rawPressed == Some(true) ==> b.rawChangedAt >= pressAt + debounce)
  }

  lemma {:induction false} SpacingKept(b: Button, debounce: nat, pressAt: nat, now: nat, s: Sample)
    requires Spaced(b, debounce, pressAt, now) && s.now >= now
    ensures Fires(b, debounce, s) ==> s.now >= pressAt + 2 * debounce
    ensures !Fires(b, debounce, s) ==> Spaced(Iterated(b, debounce, s), debounce, pressAt, s.now)
  {
  }

  lemma {:induction false} SpacingStarts(b: Button, debounce: nat, s: Sample)
    requires Fires(b, debounce, s) && b.rawChangedAt <= s.now
    ensures Spaced(Iterated(b, debounce, s), debounce, s.now, s.now)
  {
  }

  lemma {:induction false} ChangeIsPast(start: nat, debounce: nat, samples: seq<Sample>, now: nat)
    requires Ascending(samples) && (samples != [] ==> start <= samples[0].now)
    requires start <= now && (samples != [] ==> samples[|samples| - 1].now <= now)
    ensures Run(start, debounce, samples).rawChangedAt <= now
    decreases |samples|
  {
    if samples != [] {
      var n := |samples| - 1;
      ChangeIsPast(start, debounce, samples[..n], samples[n].now);
    }
  }

  lemma {:induction false} RunIsSpaced(start: nat, debounce: nat, samples: seq<Sample>)
    requires Ascending(samples) && samples != [] && start <= samples[0].now
    ensures var last := LastFired(start, debounce, samples);
            last.Some? ==> Spaced(Run(start, debounce, samples), debounce, samples[last.value].now, samples[|samples| - 1].now)
    decreases |samples|
  {
    hide Spaced, Iterated, Fires;
    var n := |samples| - 1;
    var before := samples[..n];
    var b := Run(start, debounce, before);
    LastFiredFires(start, debounce, before);
    if Fired(start, debounce, samples, n) {
      ChangeIsPast(start, debounce, before, samples[n].now);
      SpacingStarts(b, debounce, samples[n]);
    } else if LastFired(start, debounce, before).Some? {
      RunIsSpaced(start, debounce, before);
      SpacingKept(b, debounce, before[LastFired(start, debounce, before).value].now, before[n - 1].now, samples[n]);
    }
  }

  /** Presses are at least two debounce times apart, over any ascending sample times. */
  lemma {:induction false} PressesAreApart(start: nat, debounce: nat, samples: seq<Sample>, i: nat, j: nat)
    requires Ascending(samples) && samples != [] && start <= samples[0].now
    requires Fired(start, debounce, samples, i) && Fired(start, debounce, samples, j) && i < j
    ensures samples[j].now >= samples[i].now + 2 * debounce
  {
    hide Spaced, Iterated, Fires;
    var before := samples[..j];
    FiredInPrefix(start, debounce, samples, j, i);
    LastFiredIsLast(start, debounce, before, i);
    LastFiredFires(start, debounce, before);
    var last := LastFired(start, debounce, before).value;
    RunIsSpaced(start, debounce, before);
    SpacingKept(Run(start, debounce, before), debounce, before[last].now, before[j - 1].now, samples[j]);
  }

  // ---- what a press means ---------------------------------------------------------

  /** Where the current raw level of the input began. */
  ghost predicate LevelSince(samples: seq<Sample>, i: nat, level: bool) {
    && i < |samples| && samples[i].read == Some(level)
    && forall k :: i <= k < |samples| ==> samples[k].read == None || samples[k].read == Some(level)
  }

  ghost predicate ReleasedBefore(samples: seq<Sample>, i: nat) {
    exists k :: 0 <= k < i && k < |samples| && samples[k].read == Some(false)
  }

  /** What the debouncer's state says about the samples. */
  lemma {:induction false} StateExplains(start: nat, debounce: nat, samples: seq<Sample>) returns (i: nat)
    ensures var b := Run(start, debounce, samples);
            b.rawPressed.Some? ==>
              && LevelSince(samples, i, b.rawPressed.value) && b.rawChangedAt == samples[i].now
              && (!b.stablePressed && b.rawPressed == Some(true) ==> ReleasedBefore(samples, i))
              && (!b.stablePressed ==> ReleasedBefore(samples, |samples|))
    ensures Run(start, debounce, samples).rawPressed.None? ==> forall k :: 0 <= k < |samples| ==> samples[k].read.None?
    decreases |samples|
  {
    i := 0;
    if samples != [] {
      var n := |samples| - 1;
      var earlier := StateExplains(start, debounce, samples[..n]);
      i := earlier;
      var b := Run(start, debounce, samples[..n]);
      ReleasedCarries(samples, i);
      ReleasedCarries(samples, n);
      if samples[n].read.Some? && b.rawPressed != samples[n].read {
        i := n;
        var level := samples[n].read.value;
        if !level {
          assert samples[n].read == Some(false);
        } else if b.rawPressed.Some? {
          assert b.rawPressed.value == !level;
          assert samples[..n][earlier].read == Some(false);
          assert samples[earlier].read == Some(false);
        }
      } else if samples[n].read.Some? && !samples[n].read.value {
        assert samples[n].read == Some(false);
      }
    }
  }

  lemma {:induction false} ReleasedCarries(samples: seq<Sample>, i: nat)
    requires samples != []
    ensures ReleasedBefore(samples[..|samples| - 1], i) ==> ReleasedBefore(samples, i)
    ensures ReleasedBefore(samples[..|samples| - 1], |samples| - 1) ==> ReleasedBefore(samples, |samples|)
  {
    var before := samples[..|samples| - 1];
    if ReleasedBefore(before, i) {
      var k :| 0 <= k < i && k < |before| && before[k].read == Some(false);
      assert samples[k].read == Some(false);
    }
    if ReleasedBefore(before, |samples| - 1) {
      var k :| 0 <= k < |samples| - 1 && k < |before| && before[k].read == Some(false);
      assert samples[k].read == Some(false);
    }
  }

  /** A reported press was held for the debounce time without a released reading, and
      followed a released reading: a button held since start-up never fires. */
  lemma {:induction false} PressIsHeldAndFresh(start: nat, debounce: nat, samples: seq<Sample>, k: nat) returns (i: nat)
    requires Fired(start, debounce, samples, k)
    ensures LevelSince(samples[..k + 1], i, true) && Elapsed(samples[k].now, samples[i].now) >= debounce
    ensures ReleasedBefore(samples, i)
  {
    i := StateExplains(start, debounce, samples[..k]);
    var j :| 0 <= j < i && j < k && samples[..k][j].read == Some(false);
    assert samples[j].read == Some(false);
  }

  // ---- what a press leads to ------------------------------------------------------

  /** The commands issued since the last press. */
  function SinceLastPress(start: nat, debounce: nat, samples: seq<Sample>): seq<RS.LocalCommand> {
    if samples == [] then []
    else
      var n := |samples| - 1;
      var before, b := SinceLastPress(start, debounce, samples[..n]), Run(start, debounce, samples[..n]);
      var command := Polled(b, debounce, samples[n]).1;
      (if Fires(b, debounce, samples[n]) then [] else before) + if command.None? then [] else [command.value]
  }

  /** Nothing before the first press; then one command, and after an abort or a grip at most
      one more. */
  ghost predicate OnePressWorth(commands: seq<RS.LocalCommand>, f: FollowUp) {
    || (commands == [] && f == NoFollowUp)
    || (|commands| == 1
        && (f == RecoverAfterAbort ==> commands[0] == RS.LocalAbort) && (f.AutoAfterGrip? ==> commands[0] == RS.LocalGrip))
    || (|commands| == 2 && f == NoFollowUp
        && ((commands[0] == RS.LocalAbort && commands[1] == RS.LocalRecover)
            || (commands[0] == RS.LocalGrip && commands[1].LocalScanSolveExecute?)))
  }

  /** Each press yields at most two commands, and only abort-recover or grip-cycle pairs. */
  lemma {:induction false} PressYieldsAtMostTwo(start: nat, debounce: nat, samples: seq<Sample>)
    ensures OnePressWorth(SinceLastPress(start, debounce, samples), Run(start, debounce, samples).followUp)
    decreases |samples|
  {
    if samples != [] {
      var n := |samples| - 1;
      PressYieldsAtMostTwo(start, debounce, samples[..n]);
      OneMoreSample(SinceLastPress(start, debounce, samples[..n]), Run(start, debounce, samples[..n]), debounce, samples[n]);
    }
  }

  lemma {:induction false} OneMoreSample(commands: seq<RS.LocalCommand>, b: Button, debounce: nat, s: Sample)
    requires OnePressWorth(commands, b.followUp)
    ensures var command := Polled(b, debounce, s).1;
            OnePressWorth((if Fires(b, debounce, s) then [] else commands) + (if command.None? then [] else [command.value]),
                          Iterated(b, debounce, s).followUp)
  {
    hide PressEvent;
    assert commands + [] == commands;
  }

  // ---- the button and the service -------------------------------------------------

  /** In every reachable state of the service, every command that the button issues on its
      status is one that it accepts, provided the scanner is ready where a scan is asked
      for. */
  lemma {:induction false} CommandsAreAdmissible(b: Button, debounce: nat, sample: Sample, times: Calibration, script: seq<bool>,
                                                 w: SW.World, xs: seq<SC.Experience>, env: RS.Env)
    requires sample.status == SC.RunBoth(RS.Initial(times, script), w, xs).0.status
    requires env.scannerAvailable && env.scanBegins
    requires Polled(b, debounce, sample).1.Some?
    ensures RS.Refusal(SC.RunBoth(RS.Initial(times, script), w, xs).0,
                       RS.LocalAsCommand(Polled(b, debounce, sample).1.value), env).None?
  {
    hide PressEvent, Debounced, SW.Mechanical, SC.RunBoth;
    var (s, world) := SC.RunBoth(RS.Initial(times, script), w, xs);
    SC.RunsAreMechanical(times, script, w, xs);
    if s.status.controller == Ready {
      SS.ReadyMeansAtRest(times, script, w, xs);
    }
    IdleMeansFree(s);
  }

  lemma {:induction false} IdleMeansFree(s: RS.State)
    requires SI.Inv(s)
    ensures s.status.operation.None? ==> !RS.OperationActive(s) && s.status.controller != Busy
  {
  }

  // ---- which presses are reported -------------------------------------------------

  /** At sample `k` the input has had the level, as far as it could be read, for the
      debounce time, seen at two samples at least. */
  ghost predicate Held(debounce: nat, samples: seq<Sample>, k: nat, level: bool) {
    k < |samples| && samples[k].read == Some(level)
    && exists i :: 0 <= i < k && LevelSince(samples[..k + 1], i, level) && samples[k].now >= samples[i].now + debounce
  }

  predicate FirstReading(samples: seq<Sample>, k: nat) {
    k < |samples| && samples[k].read.Some? && forall i :: 0 <= i < k ==> samples[i].read.None?
  }

  /** Sample `k` settles the level: it has been held, or is the first that could be read. */
  ghost predicate Settles(debounce: nat, samples: seq<Sample>, k: nat, level: bool) {
    Held(debounce, samples, k, level) || (FirstReading(samples, k) && samples[k].read == Some(level))
  }

  /** The level that was settled last. */
  ghost predicate SettledLast(debounce: nat, samples: seq<Sample>, level: bool) {
    exists j: nat :: SettledAt(debounce, samples, j, level)
  }

  ghost predicate SettledAt(debounce: nat, samples: seq<Sample>, j: nat, level: bool) {
    && j < |samples| && Settles(debounce, samples, j, level)
    && forall m: nat, other: bool :: j < m && Settles(debounce, samples, m, other) ==> other == level
  }

  lemma {:induction false} LevelInPrefix(samples: seq<Sample>, n: nat, i: nat, level: bool)
    requires n < |samples| && LevelSince(samples[..n + 1], i, level) && i < n
    ensures LevelSince(samples[..n], i, level)
  {
    assert samples[..n + 1][i] == samples[..n][i];
    forall k | i <= k < n
      ensures samples[..n][k].read == None || samples[..n][k].read == Some(level)
    {
      assert samples[..n + 1][k] == samples[..n][k];
    }
  }

  lemma {:induction false} LevelGoesOn(samples: seq<Sample>, n: nat, i: nat, level: bool)
    requires n < |samples| && LevelSince(samples[..n], i, level) && (samples[n].read == None || samples[n].read == Some(level))
    ensures LevelSince(samples[..n + 1], i, level)
  {
    var longer := samples[..n + 1];
    forall k | i <= k < |longer|
      ensures longer[k].read == None || longer[k].read == Some(level)
    {
      if k < n {
        assert longer[k] == samples[..n][k];
      }
    }
  }

  /** What the debouncer remembers of the raw level, which began at sample `i`. */
  ghost predicate RawIs(b: Button, samples: seq<Sample>, i: nat) {
    if b.rawPressed.None? then forall k :: 0 <= k < |samples| ==> samples[k].read.None?
    else
      && LevelSince(samples, i, b.rawPressed.value) && b.rawChangedAt == samples[i].now
      && forall j: nat, level: bool :: LevelSince(samples, j, level) ==> level == b.rawPressed.value && i <= j
  }

  lemma {:induction false} RawIsTracked(start: nat, debounce: nat, samples: seq<Sample>) returns (i: nat)
    ensures RawIs(Run(start, debounce, samples), samples, i)
    decreases |samples|
  {
    i := 0;
    if samples != [] {
      var n := |samples| - 1;
      i := RawIsTracked(start, debounce, samples[..n]);
      i := RawStep(Run(start, debounce, samples[..n]), debounce, samples, i);
    }
  }

  lemma {:induction false} RawStep(b: Button, debounce: nat, samples: seq<Sample>, i: nat) returns (r: nat)
    requires samples != [] && RawIs(b, samples[..|samples| - 1], i)
    ensures RawIs(Iterated(b, debounce, samples[|samples| - 1]), samples, r)
    ensures samples[|samples| - 1].read.Some? && b.rawPressed != samples[|samples| - 1].read ==> r == |samples| - 1
    ensures samples[|samples| - 1].read.None? || b.rawPressed == samples[|samples| - 1].read ==> r == i
  {
    var n := |samples| - 1;
    var before, s := samples[..n], samples[n];
    assert samples[..n + 1] == samples;
    r := if s.read.Some? && b.rawPressed != s.read then n else i;
    if b.rawPressed.Some? {
      if r == i {
        LevelGoesOn(samples, n, i, b.rawPressed.value);
      }
      assert before[i].read == b.rawPressed;
      forall j: nat, level: bool | LevelSince(samples, j, level)
        ensures r <= j && (s.read.Some? ==> Some(level) == s.read) && (s.read.None? ==> level == b.rawPressed.value)
      {
        if j < n {
          LevelInPrefix(samples, n, j, level);
        }
      }
    } else if s.read.Some? {
      forall j: nat, level: bool | LevelSince(samples, j, level)
        ensures r <= j && Some(level) == s.read
      {
      }
    }
  }

  lemma {:induction false} SettlesInPrefix(debounce: nat, samples: seq<Sample>, n: nat, k: nat, level: bool)
    requires k < n <= |samples|
    ensures Settles(debounce, samples[..n], k, level) == Settles(debounce, samples, k, level)
  {
    assert samples[..n][..k + 1] == samples[..k + 1];
  }

  /** When the last sample settles a level. */
  lemma {:induction false} LastSettles(b: Button, debounce: nat, samples: seq<Sample>, i: nat, level: bool)
    requires samples != [] && Ascending(samples) && RawIs(b, samples[..|samples| - 1], i)
    ensures var n := |samples| - 1;
            Held(debounce, samples, n, level) <==>
              samples[n].read == Some(level) == b.rawPressed && Elapsed(samples[n].now, b.rawChangedAt) >= debounce
    ensures FirstReading(samples, |samples| - 1) <==> samples[|samples| - 1].read.Some? && b.rawPressed.None?
  {
    var n := |samples| - 1;
    var before, s := samples[..n], samples[n];
    assert samples[..n + 1] == samples;
    if Held(debounce, samples, n, level) {
      var j :| 0 <= j < n && LevelSince(samples, j, level) && s.now >= samples[j].now + debounce;
      LevelInPrefix(samples, n, j, level);
      assert before[j].read == Some(level);
    }
    if s.read == Some(level) == b.rawPressed {
      LevelGoesOn(samples, n, i, level);
    }
    if b.rawPressed.Some? {
      assert before[i].read.Some?;
    } else {
      forall k | 0 <= k < n
        ensures samples[k].read.None?
      {
        assert before[k].read.None?;
      }
    }
  }

  lemma {:induction false} NothingSettled(debounce: nat, samples: seq<Sample>, level: bool)
    requires forall k :: 0 <= k < |samples| ==> samples[k].read.None?
    ensures !SettledLast(debounce, samples, level)
  {
  }

  /** The stable level is the one settled last. */
  lemma {:induction false} StableIsTracked(start: nat, debounce: nat, samples: seq<Sample>)
    requires Ascending(samples)
    ensures Run(start, debounce, samples).rawPressed.Some? ==> SettledLast(debounce, samples, Run(start, debounce, samples).stablePressed)
    decreases |samples|
  {
    hide Settles, RawIs;
    if samples != [] {
      var n := |samples| - 1;
      var before, b := samples[..n], Run(start, debounce, samples[..n]);
      var i := RawIsTracked(start, debounce, before);
      StableIsTracked(start, debounce, before);
      StableStep(b, debounce, samples, i);
    }
  }

  lemma {:induction false} StableStep(b: Button, debounce: nat, samples: seq<Sample>, i: nat)
    requires samples != [] && Ascending(samples) && RawIs(b, samples[..|samples| - 1], i)
    requires b.rawPressed.Some? ==> SettledLast(debounce, samples[..|samples| - 1], b.stablePressed)
    ensures var after := Iterated(b, debounce, samples[|samples| - 1]);
            after.rawPressed.Some? ==> SettledLast(debounce, samples, after.stablePressed)
  {
    hide RawIs, Held, FirstReading;
    var n := |samples| - 1;
    var before, s := samples[..n], samples[n];
    LastSettles(b, debounce, samples, i, true);
    LastSettles(b, debounce, samples, i, false);
    SettledReads(debounce, samples);
    var level := Iterated(b, debounce, s).stablePressed;
    if Settles(debounce, samples, n, level) {
      assert SettledAt(debounce, samples, n, level);
    } else if b.rawPressed.Some? {
      var j: nat :| SettledAt(debounce, before, j, b.stablePressed);
      SettlesInPrefix(debounce, samples, n, j, b.stablePressed);
      forall m: nat, other: bool | j < m && Settles(debounce, samples, m, other)
        ensures other == b.stablePressed
      {
        if m < n {
          SettlesInPrefix(debounce, samples, n, m, other);
        }
      }
      assert SettledAt(debounce, samples, j, b.stablePressed);
    }
  }

  lemma {:induction false} SettledReads(debounce: nat, samples: seq<Sample>)
    ensures forall k: nat, level: bool :: Settles(debounce, samples, k, level) ==> k < |samples| && samples[k].read == Some(level)
  {
  }

  lemma {:induction false} OneSettledLast(debounce: nat, samples: seq<Sample>)
    ensures !(SettledLast(debounce, samples, true) && SettledLast(debounce, samples, false))
  {
    hide Settles;
    SettledReads(debounce, samples);
  }

  /** Over ascending samples a press is reported exactly when the button has been held for
      the debounce time and the level settled before was a release. */
  lemma {:induction false} PressesAreReported(start: nat, debounce: nat, samples: seq<Sample>, k: nat)
    requires Ascending(samples) && k < |samples|
    ensures Fired(start, debounce, samples, k) <==> Held(debounce, samples, k, true) && SettledLast(debounce, samples[..k], false)
  {
    hide Settles, RawIs, Held, SettledLast, FirstReading;
    var upTo, before := samples[..k + 1], samples[..k];
    assert upTo[..k] == before && upTo[..k + 1] == upTo;
    var b := Run(start, debounce, before);
    var i := RawIsTracked(start, debounce, before);
    LastSettles(b, debounce, upTo, i, true);
    HeldInPrefix(debounce, samples, k);
    StableIsTracked(start, debounce, before);
    OneSettledLast(debounce, before);
  }

  lemma {:induction false} HeldInPrefix(debounce: nat, samples: seq<Sample>, k: nat)
    requires k < |samples|
    ensures Held(debounce, samples[..k + 1], k, true) == Held(debounce, samples, k, true)
  {
    assert samples[..k + 1][..k + 1] == samples[..k + 1];
  }

  // ---- what a press asks for ------------------------------------------------------

  /** The command of sample `k`. */
  function Issued(start: nat, debounce: nat, samples: seq<Sample>, k: nat): Option<RS.LocalCommand>
    requires k < |samples|
  {
    Polled(Run(start, debounce, samples[..k]), debounce, samples[k]).1
  }

  /** In every reachable state of the service, a press aborts exactly when an operation is
      active, grips exactly when the stand is ready and open, and recovers otherwise. */
  lemma {:induction false} PressAsksFor(start: nat, debounce: nat, samples: seq<Sample>, k: nat, times: Calibration, script: seq<bool>,
                                        w: SW.World, xs: seq<SC.Experience>)
    requires Fired(start, debounce, samples, k)
    requires samples[k].status == SC.RunBoth(RS.Initial(times, script), w, xs).0.status
    ensures var status := samples[k].status;
            && Issued(start, debounce, samples, k).Some?
            && (Issued(start, debounce, samples, k) == Some(RS.LocalAbort) <==> status.operation.Some?)
            && (Issued(start, debounce, samples, k) == Some(RS.LocalGrip) <==>
                  status.controller == Ready && status.stand.pose.kind == Open)
            && (Issued(start, debounce, samples, k) == Some(RS.LocalRecover) <==>
                  status.operation.None? && !(status.controller == Ready && status.stand.pose.kind == Open))
  {
    hide PressEvent, Debounced, SW.Mechanical, SC.RunBoth;
    SC.RunsAreMechanical(times, script, w, xs);
    IdleMeansFree(SC.RunBoth(RS.Initial(times, script), w, xs).0);
    BusyMeansActive(SC.RunBoth(RS.Initial(times, script), w, xs).0);
  }

  lemma {:induction false} BusyMeansActive(s: RS.State)
    requires SI.Inv(s)
    ensures s.status.operation.Some? <==> s.status.controller == Busy
  {
  }

  /** Between samples `j` and `k` nothing is pressed, and whatever can be read shows the
      operation still active. */
  predicate Undisturbed(start: nat, debounce: nat, samples: seq<Sample>, j: nat, k: nat, id: nat)
    requires k <= |samples|
  {
    forall m :: j < m < k ==>
      !Fired(start, debounce, samples, m)
      && (samples[m].read.None? || (samples[m].status.operation.Some? && samples[m].status.operation.value.id == id))
  }

  lemma {:induction false} GripWaits(start: nat, debounce: nat, samples: seq<Sample>, j: nat, k: nat, id: nat)
    requires j < k <= |samples| && Issued(start, debounce, samples, j) == Some(RS.LocalGrip)
    requires samples[j].outcome == AcceptedAs(Some(id)) && Undisturbed(start, debounce, samples, j, k, id)
    ensures Run(start, debounce, samples[..k]).followUp == AutoAfterGrip(id)
    decreases k
  {
    hide PressEvent;
    assert samples[..k][..k - 1] == samples[..k - 1] && samples[..k][k - 1] == samples[k - 1];
    if k > j + 1 {
      GripWaits(start, debounce, samples, j, k - 1, id);
    }
  }

  /** A grip that the button has started is followed by the automatic cycle, for the session
      that the grip has begun, at the first sample that shows it completed. */
  lemma {:induction false} GripIsFollowed(start: nat, debounce: nat, samples: seq<Sample>, j: nat, k: nat, id: nat)
    requires j < k < |samples| && Issued(start, debounce, samples, j) == Some(RS.LocalGrip)
    requires samples[j].outcome == AcceptedAs(Some(id)) && Undisturbed(start, debounce, samples, j, k, id)
    requires samples[k].read.Some? && !Fired(start, debounce, samples, k)
    requires var status := samples[k].status;
             status.operation.None? && status.controller == Ready && status.stand.pose.kind == CanonicalPose && status.session.Some?
    ensures Issued(start, debounce, samples, k) == Some(RS.LocalScanSolveExecute(samples[k].status.session.value))
  {
    hide PressEvent;
    GripWaits(start, debounce, samples, j, k, id);
  }

  /** An abort that the button has started is followed by a recovery, at the next sample that
      can be read and shows it done. */
  lemma {:induction false} AbortIsFollowed(start: nat, debounce: nat, samples: seq<Sample>, j: nat, k: nat)
    requires j < k < |samples| && Issued(start, debounce, samples, j) == Some(RS.LocalAbort) && samples[j].outcome.AcceptedAs?
    requires forall m :: j < m < k ==> samples[m].read.None?
    requires samples[k].read.Some? && !Fired(start, debounce, samples, k)
    ensures Issued(start, debounce, samples, k) ==
              if samples[k].status.controller == Aborted && samples[k].status.operation.None? then Some(RS.LocalRecover) else None
  {
    hide PressEvent;
    AbortWaits(start, debounce, samples, j, k);
  }

  lemma {:induction false} AbortWaits(start: nat, debounce: nat, samples: seq<Sample>, j: nat, k: nat)
    requires j < k <= |samples| && Issued(start, debounce, samples, j) == Some(RS.LocalAbort) && samples[j].outcome.AcceptedAs?
    requires forall m :: j < m < k ==> samples[m].read.None?
    ensures Run(start, debounce, samples[..k]).followUp == RecoverAfterAbort
    decreases k
  {
    hide PressEvent;
    assert samples[..k][..k - 1] == samples[..k - 1] && samples[..k][k - 1] == samples[k - 1];
    if k > j + 1 {
      AbortWaits(start, debounce, samples, j, k - 1);
    }
  }
}
