/** Installing a server version: the catalogue lookup, the pull request sent
    to the panel, and the status shown afterwards, which two delayed callbacks
    move on to success and back to idle. Time is an explicit clock and the
    pending callbacks are a queue ordered by due time. */
module Install {
  import opened Js
  import opened Catalog

  datatype Status = Idle | Installing | Success | Error

  /** The simulated installation time after an accepted pull, in milliseconds. */
  const InstallDelay: nat := 30000
  /** How long a success or failure message stays, in milliseconds. */
  const ClearDelay: nat := 5000

  const PullDirectory := "/"
  const PullFilename := "server.jar"
  const FailurePrefix := "Installation failed: "
  const UnknownError := "Unknown error"

  /** The body of a pull request, sent for the server the selector belongs to. */
  datatype PullRequest = PullRequest(serverId: string, url: string, directory: string, filename: string)

  /** How a pull request ended: an HTTP response, or a thrown value (an
      `Error` with its message, or some other value, `None`). */
  datatype PullOutcome = Responded(status: nat, statusText: string) | Threw(message: Option<string>)

  /** `response.ok`. */
  predicate Accepted(outcome: PullOutcome) {
    outcome.Responded? && 200 <= outcome.status <= 299
  }

  /** An install whose pull request has been sent and not yet answered. */
  datatype Pending = Pending(serverType: string, version: string)

  /** The work a delayed callback does when it fires. */
  datatype TimerAction = FinishInstall(serverType: string, version: string) | ClearStatus

  datatype Timer = Timer(due: nat, action: TimerAction)

  /** What the status bar and the version list show at one moment. */
  datatype Snapshot = Snapshot(time: nat, status: Status, message: string, installingVersion: Option<string>)

  // ---------------------------------------------------------------------
  // messages and keys

  function MissMessage(serverType: string, version: string): string {
    "Download URL not found for " + serverType + " " + version
  }

  function InstallingMessage(serverType: string, version: string): string {
    "Installing " + serverType + " " + version + "..."
  }

  function SuccessMessage(serverType: string, version: string): string {
    serverType + " " + version + " installed successfully!"
  }

  /** The message of what the `catch` block receives: for a non-2xx response
      the `Error` thrown inside the `try`, which itself starts with the
      failure prefix, the status and the status text; for a thrown `Error`
      its message; for any other thrown value nothing. */
  function CaughtMessage(outcome: PullOutcome): (m: Option<string>)
    ensures outcome.Responded? ==> m.Some? && FailurePrefix <= m.value
    ensures outcome.Threw? ==> m == outcome.message
  {
    match outcome
    case Responded(status, statusText) => Some(FailurePrefix + Decimal(status) + " " + statusText)
    case Threw(message) => message
  }

  /** The failure message: the prefix and then the caught message, or
      `Unknown error` when the thrown value was not an `Error`. */
  function FailureMessage(outcome: PullOutcome): (m: string)
    ensures FailurePrefix <= m
    ensures outcome.Responded? ==> FailurePrefix + FailurePrefix <= m
  {
    FailurePrefix + (match CaughtMessage(outcome) case Some(text) => text case None => UnknownError)
  }

  /** A rejected response's status can be read back from the message: the
      digits right after the doubled prefix denote it. */
  lemma FailureMessageCarriesStatus(status: nat, statusText: string)
    ensures var m := FailureMessage(Responded(status, statusText));
            var start := |FailurePrefix + FailurePrefix|;
            var digits := Decimal(status);
            start + |digits| < |m| &&
            m[start..start + |digits|] == digits &&
            m[start + |digits|] == ' ' &&
            DecimalValue(m[start..start + |digits|]) == status
  {
    var m := FailureMessage(Responded(status, statusText));
    var digits := Decimal(status);
    assert m == (FailurePrefix + FailurePrefix) + digits + " " + statusText;
    DecimalRoundTrip(status);
  }

  /** The key of the version being installed, `<type>-<version>`. */
  function VersionKey(serverType: string, version: string): (k: string)
    ensures |k| == |serverType| + 1 + |version|
    ensures k[..|serverType|] == serverType && k[|serverType|] == '-' && k[|serverType| + 1..] == version
  {
    serverType + "-" + version
  }

  /** For software ids without a dash, the key names one software and one
      version only. */
  lemma VersionKeyInjective(t1: string, v1: string, t2: string, v2: string)
    requires '-' !in t1 && '-' !in t2
    requires VersionKey(t1, v1) == VersionKey(t2, v2)
    ensures t1 == t2 && v1 == v2
  {
    var k := VersionKey(t1, v1);
    assert t1 == k[..|t1|] == t2;
  }

  /** No catalogue id contains a dash. */
  lemma CatalogueIdsHaveNoDash()
    ensures forall s :: s in ServerTypes ==> '-' !in s.id
  {
    assert '-' !in Paper.id && '-' !in NeoForge.id && '-' !in Archlight.id && '-' !in Forge.id;
    assert '-' !in Fabric.id && '-' !in Velocity.id && '-' !in Purpur.id && '-' !in Mohist.id;
  }

  // ---------------------------------------------------------------------
  // the per-version rule

  /** The version row that shows the spinner is the one whose key is the
      version being installed. */
  predicate IsInstalling(installingVersion: Option<string>, serverType: string, version: string) {
    installingVersion == Some(VersionKey(serverType, version))
  }

  /** A version's button is disabled while any install is in progress and for
      every version without a download URL: so exactly the Mohist versions
      are ever enabled, and none of them during an install. */
  function IsDisabled(status: Status, serverType: string, version: string): (disabled: bool)
    ensures disabled <==> status == Installing || !(serverType == "mohist" && version in MohistVersions)
  {
    DownloadUrlAvailability(serverType, version);
    status == Installing || !Truthy(DownloadUrl(serverType, version))
  }

  /** A version's button is enabled exactly when no install is in progress
      and the version has a download URL, so a click never reaches the
      not-found branch of `installVersion`. */
  lemma EnabledOnlyWithUrl(status: Status, serverType: string, version: string)
    ensures !IsDisabled(status, serverType, version) <==>
            status != Installing && DownloadUrl(serverType, version).Some?
  {
    DownloadUrlAvailability(serverType, version);
  }

  /** At most one row of a catalogue entry shows the spinner. */
  lemma OneSpinnerPerEntry(installingVersion: Option<string>, s: ServerType, v1: string, v2: string)
    requires s in ServerTypes
    requires IsInstalling(installingVersion, s.id, v1) && IsInstalling(installingVersion, s.id, v2)
    ensures v1 == v2
  {
    CatalogueIdsHaveNoDash();
    VersionKeyInjective(s.id, v1, s.id, v2);
  }

  // ---------------------------------------------------------------------
  // the timer queue

  /** Each timer is due no earlier than the one before it. */
  predicate Sorted(timers: seq<Timer>)
    decreases |timers|
  {
    |timers| < 2 || (timers[0].due <= timers[1].due && Sorted(timers[1..]))
  }

  /** The same order, stated over every pair of positions. */
  predicate InOrder(timers: seq<Timer>) {
    forall i, j :: 0 <= i < j < |timers| ==> timers[i].due <= timers[j].due
  }

  lemma {:induction false} SortedInOrder(timers: seq<Timer>)
    ensures Sorted(timers) <==> InOrder(timers)
    decreases |timers|
  {
    if |timers| >= 2 {
      SortedInOrder(timers[1..]);
      assert forall i :: 0 <= i < |timers| - 1 ==> timers[1..][i] == timers[i + 1];
      if Sorted(timers) {
        forall i, j | 0 <= i < j < |timers| ensures timers[i].due <= timers[j].due {
          if i > 0 {
            assert timers[1..][i - 1].due <= timers[1..][j - 1].due;
          } else if j > 1 {
            assert timers[1..][0].due <= timers[1..][j - 1].due;
          }
        }
      }
    }
  }

  /** The number of leading timers due no later than `due`. */
  function DueBy(timers: seq<Timer>, due: nat): (k: nat)
    ensures k <= |timers|
    ensures forall i :: 0 <= i < k ==> timers[i].due <= due
    ensures InOrder(timers) ==> forall i :: k <= i < |timers| ==> timers[i].due > due
    decreases |timers|
  {
    if timers == [] || timers[0].due > due then 0
    else
      assert InOrder(timers) ==> InOrder(timers[1..]) by {
        assert forall i :: 0 <= i < |timers| - 1 ==> timers[1..][i] == timers[i + 1];
      }
      1 + DueBy(timers[1..], due)
  }

  /** `setTimeout`: the new timer goes after every timer due no later than
      it (so timers due at the same moment fire in the order they were set)
      and before the rest. */
  function Schedule(timers: seq<Timer>, t: Timer): (r: seq<Timer>)
    requires Sorted(timers)
    ensures Sorted(r)
    ensures |r| == |timers| + 1
    ensures forall x :: x in r <==> x in timers || x == t
  {
    SortedInOrder(timers);
    var k := DueBy(timers, t.due);
    InsertAtKeepsOrder(timers, k, t);
    SortedInOrder(timers[..k] + [t] + timers[k..]);
    timers[..k] + [t] + timers[k..]
  }

  /** Inserting a timer between the ones due no later and the ones due later
      keeps the queue in due order and adds exactly that timer. */
  lemma InsertAtKeepsOrder(timers: seq<Timer>, k: nat, t: Timer)
    requires InOrder(timers) && k <= |timers|
    requires forall i :: 0 <= i < k ==> timers[i].due <= t.due
    requires forall i :: k <= i < |timers| ==> timers[i].due > t.due
    ensures InOrder(timers[..k] + [t] + timers[k..])
    ensures forall x :: x in timers[..k] + [t] + timers[k..] <==> x in timers || x == t
  {
    var r := timers[..k] + [t] + timers[k..];
    assert forall i :: 0 <= i < k ==> r[i] == timers[i];
    assert r[k] == t;
    assert forall i :: k < i < |r| ==> r[i] == timers[i - 1];
    assert timers == timers[..k] + timers[k..];
  }

  /** `r` is `timers` with `t` spliced in at `k`: after every timer due no
      later than `t` and before every timer due later. */
  ghost predicate SplicedAt(timers: seq<Timer>, t: Timer, r: seq<Timer>, k: nat) {
    && k <= |timers| && r == timers[..k] + [t] + timers[k..]
    && (forall i :: 0 <= i < k ==> timers[i].due <= t.due)
    && (forall i :: k <= i < |timers| ==> timers[i].due > t.due)
  }

  /** Where `setTimeout` puts the new timer: after every pending timer due no
      later than it, so that among timers due at the same moment the one set
      first fires first, and before every timer due later. */
  lemma ScheduleFifo(timers: seq<Timer>, t: Timer)
    requires Sorted(timers)
    ensures SplicedAt(timers, t, Schedule(timers, t), DueBy(timers, t.due))
  {
    SortedInOrder(timers);
  }

  /** Every pending timer stays, as often as it was pending, and the new one
      is added once. */
  lemma ScheduleMultiset(timers: seq<Timer>, t: Timer)
    requires Sorted(timers)
    ensures multiset(Schedule(timers, t)) == multiset(timers) + multiset{t}
  {
    var k := DueBy(timers, t.due);
    assert Schedule(timers, t) == timers[..k] + [t] + timers[k..];
    SpliceMultiset(timers, k, t);
  }

  /** Splicing one element into a sequence adds it to the multiset once. */
  lemma SpliceMultiset<T>(s: seq<T>, k: nat, x: T)
    requires k <= |s|
    ensures multiset(s[..k] + [x] + s[k..]) == multiset(s) + multiset{x}
  {
    assert s == s[..k] + s[k..];
  }

  /** A timer due no earlier than every pending one goes to the end. */
  lemma ScheduleLatest(timers: seq<Timer>, t: Timer)
    requires Sorted(timers)
    requires forall i :: 0 <= i < |timers| ==> timers[i].due <= t.due
    ensures Schedule(timers, t) == timers + [t]
  {
    DueByAll(timers, t.due);
    assert timers[..|timers|] == timers && timers[|timers|..] == [];
  }

  lemma {:induction false} DueByAll(timers: seq<Timer>, due: nat)
    requires forall i :: 0 <= i < |timers| ==> timers[i].due <= due
    ensures DueBy(timers, due) == |timers|
    decreases |timers|
  {
    if timers != [] {
      assert forall i :: 0 <= i < |timers| - 1 ==> timers[1..][i] == timers[i + 1];
      DueByAll(timers[1..], due);
    }
  }

  /** Some callback that finishes an install is pending. */
  predicate FinishPending(timers: seq<Timer>) {
    exists x :: x in timers && x.action.FinishInstall?
  }

  /** Taking the earliest timer off the queue leaves a queue in due order
      whose first timer is due no earlier than it, and a finishing callback
      other than the one taken still pending. */
  lemma PopEarliest(timers: seq<Timer>)
    requires Sorted(timers) && timers != []
    ensures Sorted(timers[1..])
    ensures timers[1..] != [] ==> timers[1..][0].due >= timers[0].due
    ensures FinishPending(timers) && !timers[0].action.FinishInstall? ==> FinishPending(timers[1..])
  {
    if FinishPending(timers) && !timers[0].action.FinishInstall? {
      var x :| x in timers && x.action.FinishInstall?;
      assert timers == [timers[0]] + timers[1..];
      assert x in timers[1..];
    }
  }

  /** Setting a timer for later keeps the earliest pending timer due from
      `now` on. */
  lemma ScheduleNotOverdue(timers: seq<Timer>, t: Timer, now: nat)
    requires Sorted(timers)
    requires timers != [] ==> timers[0].due >= now
    requires t.due >= now
    ensures Schedule(timers, t)[0].due >= now
  {
    var r := Schedule(timers, t);
    assert r[0] in r;
    if r[0] != t {
      var j :| 0 <= j < |timers| && timers[j] == r[0];
      SortedInOrder(timers);
      assert timers[0].due <= timers[j].due;
    }
  }

  /** Setting a timer keeps a pending finishing callback pending. */
  lemma ScheduleKeepsFinish(timers: seq<Timer>, t: Timer)
    requires Sorted(timers)
    requires FinishPending(timers) || t.action.FinishInstall?
    ensures FinishPending(Schedule(timers, t))
  {
    var r := Schedule(timers, t);
    if t.action.FinishInstall? {
      assert t in r;
    } else {
      var x :| x in timers && x.action.FinishInstall?;
      assert x in r;
    }
  }

  /** The callback an answered pull sets: for an accepted pull the one that
      finishes that install 30 s later, for any other answer the one that
      clears the failure 5 s later. */
  function Resolution(p: Pending, outcome: PullOutcome, now: nat): (t: Timer)
    ensures t.due > now
    ensures t.action.FinishInstall? <==> Accepted(outcome)
    ensures Accepted(outcome) ==> t.due == now + InstallDelay && t.action == FinishInstall(p.serverType, p.version)
    ensures !Accepted(outcome) ==> t.due == now + ClearDelay
  {
    if Accepted(outcome) then Timer(now + InstallDelay, FinishInstall(p.serverType, p.version))
    else Timer(now + ClearDelay, ClearStatus)
  }

  // ---------------------------------------------------------------------
  // the component's install state

  /** The queue is in due order and nothing in it is overdue; an install in
      progress has a version key and can still end (its answer or its
      finishing callback is pending); the idle state carries no message. */
  predicate Invariant(now: nat, timers: seq<Timer>, status: Status, message: string,
                      installingVersion: Option<string>, awaiting: seq<Pending>)
  {
    && Sorted(timers)
    && (timers != [] ==> timers[0].due >= now)
    && (status == Installing ==> installingVersion.Some? && (awaiting != [] || FinishPending(timers)))
    && (status == Idle ==> message == "")
  }

  /** Firing a finishing callback shows a success and leaves a valid state. */
  lemma FireFinishKeepsInvariant(timers: seq<Timer>, message: string, awaiting: seq<Pending>)
    requires Sorted(timers) && timers != []
    ensures Invariant(timers[0].due, Schedule(timers[1..], Timer(timers[0].due + ClearDelay, ClearStatus)),
                      Success, message, None, awaiting)
  {
    PopEarliest(timers);
    ScheduleNotOverdue(timers[1..], Timer(timers[0].due + ClearDelay, ClearStatus), timers[0].due);
  }

  /** Firing a clearing callback resets to idle and leaves a valid state. */
  lemma FireClearKeepsInvariant(timers: seq<Timer>, installingVersion: Option<string>, awaiting: seq<Pending>)
    requires Sorted(timers) && timers != []
    ensures Invariant(timers[0].due, timers[1..], Idle, "", installingVersion, awaiting)
  {
    PopEarliest(timers);
  }

  class VersionSelector {
    /** The server the selector was opened for. */
    const serverId: string
    var installStatus: Status
    var installMessage: string
    var installingVersion: Option<string>
    /** The current time, in milliseconds since the selector was opened. */
    var now: nat
    /** The callbacks set with `setTimeout` that have not fired yet. */
    var timers: seq<Timer>
    /** The installs waiting for their pull request's answer. */
    var awaiting: seq<Pending>
    /** Every pull request sent, in order. */
    var pulls: seq<PullRequest>

    /** The selector's fields satisfy `Invariant`. */
    predicate Valid()
      reads this
    {
      Invariant(now, timers, installStatus, installMessage, installingVersion, awaiting)
    }

    function Snap(): Snapshot
      reads this
    {
      Snapshot(now, installStatus, installMessage, installingVersion)
    }

    constructor (serverId: string)
      ensures Valid()
      ensures this.serverId == serverId
      ensures installStatus == Idle && installMessage == "" && installingVersion == None
      ensures now == 0 && timers == [] && awaiting == [] && pulls == []
    {
      this.serverId := serverId;
      installStatus := Idle;
      installMessage := "";
      installingVersion := None;
      now := 0;
      timers := [];
      awaiting := [];
      pulls := [];
    }

    /** `installVersion` up to its `await`. Without a download URL: the error
        status and the not-found message, and nothing else changes. With one:
        the version key, the installing status and message, and one pull
        request for that URL into `/` as `server.jar`. */
    method InstallVersion(serverType: string, version: string)
      requires Valid()
      modifies this
      ensures Valid()
      ensures now == old(now) && timers == old(timers)
      ensures !Truthy(DownloadUrl(serverType, version)) ==>
                && installStatus == Error && installMessage == MissMessage(serverType, version)
                && installingVersion == old(installingVersion)
                && awaiting == old(awaiting) && pulls == old(pulls)
      ensures Truthy(DownloadUrl(serverType, version)) ==>
                && installStatus == Installing && installMessage == InstallingMessage(serverType, version)
                && installingVersion == Some(VersionKey(serverType, version))
                && awaiting == old(awaiting) + [Pending(serverType, version)]
                && pulls == old(pulls) + [PullRequest(serverId, DownloadUrl(serverType, version).value, PullDirectory, PullFilename)]
    {
      var url := DownloadUrl(serverType, version);
      if !Truthy(url) {
        installStatus := Error;
        installMessage := MissMessage(serverType, version);
        return;
      }
      installingVersion := Some(VersionKey(serverType, version));
      installStatus := Installing;
      installMessage := InstallingMessage(serverType, version);
      pulls := pulls + [PullRequest(serverId, url.value, PullDirectory, PullFilename)];
      awaiting := awaiting + [Pending(serverType, version)];
    }

    /** A click on a version's button starts an install exactly when the
        button is enabled; a click on a disabled button changes nothing. */
    method ClickVersion(serverType: string, version: string) returns (started: bool)
      requires Valid()
      modifies this
      ensures Valid()
      ensures started <==> !IsDisabled(old(installStatus), serverType, version)
      ensures !started ==>
                && installStatus == old(installStatus) && installMessage == old(installMessage)
                && installingVersion == old(installingVersion)
                && awaiting == old(awaiting) && pulls == old(pulls)
      ensures started ==>
                && installStatus == Installing && installMessage == InstallingMessage(serverType, version)
                && installingVersion == Some(VersionKey(serverType, version))
                && awaiting == old(awaiting) + [Pending(serverType, version)]
                && pulls == old(pulls) + [PullRequest(serverId, DownloadUrl(serverType, version).value, PullDirectory, PullFilename)]
      ensures now == old(now) && timers == old(timers)
    {
      started := !IsDisabled(installStatus, serverType, version);
      if started {
        InstallVersion(serverType, version);
      }
    }

    /** `installVersion` after its `await`, for the `i`-th install still
        waiting. An accepted pull sets the finishing callback 30 s ahead and
        changes nothing shown; any other answer shows the failure, clears the
        version key and sets the clearing callback 5 s ahead. */
    method PullResolved(i: nat, outcome: PullOutcome)
      requires Valid() && i < |awaiting|
      modifies this
      ensures Valid()
      ensures now == old(now) && pulls == old(pulls)
      ensures awaiting == old(awaiting[..i] + awaiting[i + 1..])
      ensures timers == Schedule(old(timers), Resolution(old(awaiting[i]), outcome, now))
      ensures Accepted(outcome) ==>
                && installStatus == old(installStatus) && installMessage == old(installMessage)
                && installingVersion == old(installingVersion)
      ensures !Accepted(outcome) ==>
                && installStatus == Error && installMessage == FailureMessage(outcome)
                && installingVersion == None
    {
      var t := Resolution(awaiting[i], outcome, now);
      ghost var wasWaiting := |awaiting|;
      awaiting := awaiting[..i] + awaiting[i + 1..];
      assert |awaiting| == wasWaiting - 1;
      if !Accepted(outcome) {
        installStatus := Error;
        installMessage := FailureMessage(outcome);
        installingVersion := None;
      }
      ScheduleNotOverdue(timers, t, now);
      if Accepted(outcome) {
        ScheduleKeepsFinish(timers, t);
      }
      timers := Schedule(timers, t);
    }

    /** The earliest pending callback fires, at its due time. The finishing
        callback shows the success, clears the version key and sets the
        clearing callback 5 s ahead; the clearing callback resets the status
        and the message, whichever install they belong to, and leaves the
        version key alone. */
    method FireTimer()
      requires Valid() && timers != []
      modifies this
      ensures Valid()
      ensures now == old(timers[0].due)
      ensures awaiting == old(awaiting) && pulls == old(pulls)
      ensures old(timers[0].action).FinishInstall? ==>
                && installStatus == Success
                && installMessage == SuccessMessage(old(timers[0].action.serverType), old(timers[0].action.version))
                && installingVersion == None
                && timers == Schedule(old(timers[1..]), Timer(now + ClearDelay, ClearStatus))
      ensures old(timers[0].action).ClearStatus? ==>
                && installStatus == Idle && installMessage == ""
                && installingVersion == old(installingVersion)
                && timers == old(timers[1..])
    {
      if timers[0].action.FinishInstall? {
        FireFinish();
      } else {
        FireClear();
      }
    }

    /** The earliest callback is the finishing one: success is shown, the
        spinner stops and the clearing callback is queued. */
    method FireFinish()
      requires Valid() && timers != [] && timers[0].action.FinishInstall?
      modifies this
      ensures Valid()
      ensures now == old(timers[0].due)
      ensures awaiting == old(awaiting) && pulls == old(pulls)
      ensures installStatus == Success
      ensures installMessage == SuccessMessage(old(timers[0].action.serverType), old(timers[0].action.version))
      ensures installingVersion == None
      ensures timers == Schedule(old(timers[1..]), Timer(now + ClearDelay, ClearStatus))
    {
      var timer := timers[0];
      var message := SuccessMessage(timer.action.serverType, timer.action.version);
      FireFinishKeepsInvariant(timers, message, awaiting);
      installStatus, installMessage, installingVersion, now, timers :=
        Success, message, None, timer.due, Schedule(timers[1..], Timer(timer.due + ClearDelay, ClearStatus));
    }

    /** The earliest callback is the clearing one: the status and message
        return to idle, the version key is left as it was. */
    method FireClear()
      requires Valid() && timers != [] && timers[0].action.ClearStatus?
      modifies this
      ensures Valid()
      ensures now == old(timers[0].due)
      ensures awaiting == old(awaiting) && pulls == old(pulls)
      ensures installStatus == Idle && installMessage == ""
      ensures installingVersion == old(installingVersion)
      ensures timers == old(timers[1..])
    {
      FireClearKeepsInvariant(timers, installingVersion, awaiting);
      installStatus, installMessage := Idle, "";
      now, timers := timers[0].due, timers[1..];
    }

    /** Time passes without any callback falling due. */
    method Elapse(d: nat)
      requires Valid()
      requires timers == [] || now + d < timers[0].due
      modifies this
      ensures Valid()
      ensures now == old(now) + d
      ensures installStatus == old(installStatus) && installMessage == old(installMessage)
      ensures installingVersion == old(installingVersion)
      ensures timers == old(timers) && awaiting == old(awaiting) && pulls == old(pulls)
    {
      now := now + d;
    }
  }

  // ---------------------------------------------------------------------
  // whole installs

  /** The only pending install's pull is answered and every callback it sets
      off fires in turn; what is shown after each step. */
  method AnswerAndWait(selector: VersionSelector, outcome: PullOutcome)
    returns (answered: Snapshot, fired: Snapshot, cleared: Option<Snapshot>)
    requires selector.Valid() && selector.timers == [] && |selector.awaiting| == 1
    modifies selector
    ensures var p := old(selector.awaiting[0]);
            var t := old(selector.now);
            if Accepted(outcome) then
              && answered == Snapshot(t, old(selector.installStatus), old(selector.installMessage), old(selector.installingVersion))
              && fired == Snapshot(t + InstallDelay, Success, SuccessMessage(p.serverType, p.version), None)
              && cleared == Some(Snapshot(t + InstallDelay + ClearDelay, Idle, "", None))
            else
              && answered == Snapshot(t, Error, FailureMessage(outcome), None)
              && fired == Snapshot(t + ClearDelay, Idle, "", None)
              && cleared == None
  {
    var p := selector.awaiting[0];
    selector.PullResolved(0, outcome);
    answered := selector.Snap();
    ScheduleLatest([], Resolution(p, outcome, selector.now));
    selector.FireTimer();
    fired := selector.Snap();
    cleared := None;
    if Accepted(outcome) {
      ScheduleLatest([], Timer(selector.now + ClearDelay, ClearStatus));
      selector.FireTimer();
      cleared := Some(selector.Snap());
    }
  }

  /** One install on a fresh selector: `installVersion` for the given
      software and version, its pull answered with `outcome` after `latency`
      milliseconds, then every callback fired in turn. Returns the pull
      requests sent and what was shown after each step. */
  method InstallScenario(serverId: string, serverType: string, version: string, latency: nat, outcome: PullOutcome)
    returns (requests: seq<PullRequest>, trace: seq<Snapshot>)
    ensures !Truthy(DownloadUrl(serverType, version)) ==>
              && requests == []
              && trace == [Snapshot(0, Error, MissMessage(serverType, version), None)]
    ensures Truthy(DownloadUrl(serverType, version)) ==>
              requests == [PullRequest(serverId, DownloadUrl(serverType, version).value, PullDirectory, PullFilename)]
    ensures Truthy(DownloadUrl(serverType, version)) && Accepted(outcome) ==>
              trace == [Snapshot(0, Installing, InstallingMessage(serverType, version), Some(VersionKey(serverType, version))),
                        Snapshot(latency, Installing, InstallingMessage(serverType, version), Some(VersionKey(serverType, version))),
                        Snapshot(latency + InstallDelay, Success, SuccessMessage(serverType, version), None),
                        Snapshot(latency + InstallDelay + ClearDelay, Idle, "", None)]
    ensures Truthy(DownloadUrl(serverType, version)) && !Accepted(outcome) ==>
              trace == [Snapshot(0, Installing, InstallingMessage(serverType, version), Some(VersionKey(serverType, version))),
                        Snapshot(latency, Error, FailureMessage(outcome), None),
                        Snapshot(latency + ClearDelay, Idle, "", None)]
  {
    var selector := new VersionSelector(serverId);
    selector.InstallVersion(serverType, version);
    var started := selector.Snap();
    requests := selector.pulls;
    if !Truthy(DownloadUrl(serverType, version)) {
      trace := [started];
      return;
    }
    selector.Elapse(latency);
    var answered, fired, cleared := AnswerAndWait(selector, outcome);
    trace := [started, answered, fired] + (if cleared.Some? then [cleared.value] else []);
  }

  /** A click on an enabled version whose pull is accepted, and the
      finishing callback: the success is shown and its clearing callback is
      the only one pending. */
  method InstallAndFinish(selector: VersionSelector, serverType: string, version: string)
    requires selector.Valid() && selector.timers == [] && selector.awaiting == []
    requires !IsDisabled(selector.installStatus, serverType, version)
    modifies selector
    ensures selector.Valid()
    ensures selector.installStatus == Success && selector.installingVersion == None
    ensures selector.now == old(selector.now) + InstallDelay
    ensures selector.timers == [Timer(selector.now + ClearDelay, ClearStatus)]
    ensures selector.awaiting == []
  {
    var _ := selector.ClickVersion(serverType, version);
    var p := selector.awaiting[0];
    selector.PullResolved(0, Responded(200, "OK"));
    ScheduleLatest([], Resolution(p, Responded(200, "OK"), selector.now));
    ScheduleLatest([], Timer(selector.now + InstallDelay + ClearDelay, ClearStatus));
    selector.FireTimer();
  }

  /** The clearing callbacks do not check which install is current: after a
      finished install of Mohist 1.20.1, a second install started within the
      following five seconds is reset to idle by the first install's clearing
      callback while its own pull is still unanswered, and with the status
      idle a third install can start beside it. */
  method StaleClearScenario(serverId: string)
    returns (afterClear: Snapshot, waiting: seq<Pending>, thirdStarted: bool, waitingAfterThird: seq<Pending>)
    ensures afterClear == Snapshot(InstallDelay + ClearDelay, Idle, "", Some(VersionKey("mohist", "1.19.4")))
    ensures waiting == [Pending("mohist", "1.19.4")]
    ensures thirdStarted
    ensures waitingAfterThird == [Pending("mohist", "1.19.4"), Pending("mohist", "1.18.2")]
  {
    var selector := new VersionSelector(serverId);
    InstallAndFinish(selector, "mohist", "1.20.1");
    var second := selector.ClickVersion("mohist", "1.19.4");
    selector.FireTimer();
    afterClear, waiting := selector.Snap(), selector.awaiting;
    thirdStarted := selector.ClickVersion("mohist", "1.18.2");
    waitingAfterThird := selector.awaiting;
  }
}
