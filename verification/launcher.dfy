/**
  The launch typestate. A `Launcher<S>` carries its state as a type
  parameter drawn from the markers `New`, `Started` and `Finished`; each
  transition consumes a launcher of one state and returns one of the next.
  Beside the two handles the model keeps the log of ioctls the launcher has
  issued, and each state has a validity predicate over that log. The only
  way to a valid launcher is through the transitions: every valid `New` is
  what `NewLauncher` returns, every valid `Started` is what `StartLaunch`
  and then `UpdateData` over its logged pages return, and `FinishLaunch`
  needs a valid `Started`.

  Only `NewLauncher` is modelled from its code. `StartLaunch`, `UpdateData`
  and `FinishLaunch` are abstract steps that issue their command (ids 257,
  258 and 259) on the VM handle and advance the state.
 */
module Launcher {
  import opened Ints
  import opened Wrappers
  import opened Ioctl
  import opened KvmTypes
  import opened Launch
  import opened LaunchIoctl

  /** A new SNP-encrypted VM, not previously running. */
  datatype New = New

  /** A launch in progress: pages may be added. */
  datatype Started = Started

  /** A completed launch. */
  datatype Finished = Finished

  /** An ioctl as issued: the handle it went to, the request code and the command. */
  datatype Issued = Issued(fd: Handle, request: Request, command: Command)

  /** A launcher: state marker, VM (`kvm`) and platform (`sev`) handles, and the ioctls issued so far. */
  datatype Launcher<S> = Launcher(state: S, kvm: Handle, sev: Handle, log: seq<Issued>)

  /** A consuming transition: the ioctl it issued, and the next launcher or the error. */
  datatype Step<+T> = Step(issued: Issued, result: Result<T, OsError>)

  /** A command built with the `sev` handle, issued on the `kvm` handle. */
  function IssueOn(kvm: Handle, sev: Handle, p: Payload): Issued {
    Issued(kvm, RequestFor(KindOf(p)), CommandFor(sev, p))
  }

  /** `x` is a launch command of kind `k`, issued on `kvm` and naming `sev`. */
  predicate IsStep(x: Issued, kvm: Handle, sev: Handle, k: Kind) {
    && x.fd == kvm
    && x.request == ENC_OP
    && x.command.sev == sev
    && KindOf(x.command.payload) == k
    && x.command.id == Id(k)
  }

  /** The log of a started launch: init, start, then any number of updates. */
  predicate StartedLog(log: seq<Issued>, kvm: Handle, sev: Handle) {
    && |log| >= 2
    && IsStep(log[0], kvm, sev, InitKind)
    && IsStep(log[1], kvm, sev, LaunchStartKind)
    && forall i :: 2 <= i < |log| ==> IsStep(log[i], kvm, sev, LaunchUpdateKind)
  }

  predicate ValidNew(l: Launcher<New>) {
    |l.log| == 1 && IsStep(l.log[0], l.kvm, l.sev, InitKind)
  }

  predicate ValidStarted(l: Launcher<Started>) {
    StartedLog(l.log, l.kvm, l.sev)
  }

  predicate ValidFinished(l: Launcher<Finished>) {
    && |l.log| >= 3
    && StartedLog(l.log[..|l.log| - 1], l.kvm, l.sev)
    && IsStep(l.log[|l.log| - 1], l.kvm, l.sev, LaunchFinishKind)
  }

  // ------------------------------------------------------------ transitions

  /**
    `Launcher::new`: issue SNP_INIT, with the zero `Init`, built with the
    `sev` handle and issued on the `kvm` handle. A failure is returned and no
    launcher exists; on success the launcher holds exactly the two handles.
   */
  function NewLauncher(kvm: Handle, sev: Handle, kernel: Outcome<()>): (s: Step<Launcher<New>>)
    ensures s.issued == Issued(kvm, ENC_OP, Command(256, InitPayload(Init(0)), sev))
    ensures s.result.Ok? <==> kernel.Completed?
    ensures kernel.Failed? ==> s.result.error == kernel.error
    ensures s.result.Ok? ==> (ValidNew(s.result.value)
                              && s.result.value.kvm == kvm && s.result.value.sev == sev
                              && s.result.value.log == [s.issued])
  {
    var init := DefaultInit();
    var issued := IssueOn(kvm, sev, InitPayload(init));
    match kernel
    case Failed(e) => Step(issued, Err(e))
    case Completed(_) => Step(issued, Ok(Launcher(New, kvm, sev, [issued])))
  }

  /** Every valid `New` launcher is the one `NewLauncher` returns for its handles. */
  lemma NewOnlyFromNewLauncher(l: Launcher<New>)
    requires ValidNew(l)
    ensures NewLauncher(l.kvm, l.sev, Completed(())).result == Ok(l)
  {
    var x := l.log[0];
    assert x.command.payload == InitPayload(Init(0));
    assert x == Issued(l.kvm, ENC_OP, Command(256, InitPayload(Init(0)), l.sev));
    assert l.log == [x];
    assert l.state == New;
    assert l == Launcher(New, l.kvm, l.sev, [x]);
  }

  /** Begin the launch (SNP_LAUNCH_START, id 257): `New` becomes `Started`. */
  function StartLaunch(l: Launcher<New>, start: Start, kernel: Outcome<()>): (s: Step<Launcher<Started>>)
    requires ValidNew(l)
    ensures IsStep(s.issued, l.kvm, l.sev, LaunchStartKind)
    ensures s.issued == IssueOn(l.kvm, l.sev, LaunchStartPayload(start))
    ensures s.result.Ok? <==> kernel.Completed?
    ensures kernel.Failed? ==> s.result.error == kernel.error
    ensures s.result.Ok? ==> (ValidStarted(s.result.value)
                              && s.result.value.kvm == l.kvm && s.result.value.sev == l.sev
                              && s.result.value.log == l.log + [s.issued])
  {
    var issued := IssueOn(l.kvm, l.sev, LaunchStartPayload(start));
    match kernel
    case Failed(e) => Step(issued, Err(e))
    case Completed(_) => Step(issued, Ok(Launcher(Started, l.kvm, l.sev, l.log + [issued])))
  }

  /** The launcher after an update, and the update's result. */
  datatype Updated = Updated(launcher: Launcher<Started>, result: Result<(), OsError>)

  /**
    Add one buffer to the guest (SNP_LAUNCH_UPDATE, id 258). The launcher is
    borrowed, not consumed, so it stays `Started` whatever the outcome.
   */
  function UpdateData(l: Launcher<Started>, buffer: seq<u8>, update: Update, kernel: Outcome<()>)
    : (u: Updated)
    requires ValidStarted(l)
    ensures ValidStarted(u.launcher)
    ensures u.launcher.kvm == l.kvm && u.launcher.sev == l.sev
    ensures u.launcher.log == l.log + [IssueOn(l.kvm, l.sev, LaunchUpdatePayload(buffer, update))]
    ensures u.result.Ok? <==> kernel.Completed?
    ensures kernel.Failed? ==> u.result.error == kernel.error
  {
    var issued := IssueOn(l.kvm, l.sev, LaunchUpdatePayload(buffer, update));
    var next := Launcher(Started, l.kvm, l.sev, l.log + [issued]);
    match kernel
    case Failed(e) => Updated(next, Err(e))
    case Completed(_) => Updated(next, Ok(()))
  }

  /** Complete the launch (SNP_LAUNCH_FINISH, id 259): `Started` becomes `Finished`. */
  function FinishLaunch(l: Launcher<Started>, finish: Finish, kernel: Outcome<()>)
    : (s: Step<Launcher<Finished>>)
    requires ValidStarted(l)
    ensures IsStep(s.issued, l.kvm, l.sev, LaunchFinishKind)
    ensures s.issued == IssueOn(l.kvm, l.sev, LaunchFinishPayload(finish))
    ensures s.result.Ok? <==> kernel.Completed?
    ensures kernel.Failed? ==> s.result.error == kernel.error
    ensures s.result.Ok? ==> (ValidFinished(s.result.value)
                              && s.result.value.kvm == l.kvm && s.result.value.sev == l.sev
                              && s.result.value.log == l.log + [s.issued])
  {
    var issued := IssueOn(l.kvm, l.sev, LaunchFinishPayload(finish));
    match kernel
    case Failed(e) => Step(issued, Err(e))
    case Completed(_) =>
      var next := Launcher(Finished, l.kvm, l.sev, l.log + [issued]);
      assert next.log[..|next.log| - 1] == l.log;
      Step(issued, Ok(next))
  }

  // ------------------------------------------------------- protocol traces

  /** The command ids of a log, in issue order. */
  function Ids(log: seq<Issued>): (ids: seq<u32>)
    ensures |ids| == |log|
    ensures forall i :: 0 <= i < |log| ==> ids[i] == log[i].command.id
  {
    if |log| == 0 then [] else Ids(log[..|log| - 1]) + [log[|log| - 1].command.id]
  }

  /** Where the launch protocol stands. */
  datatype Phase = Closed | AtNew | AtStarted | AtFinished

  /** One protocol step: which command id each phase accepts, and where it leads. */
  function Advance(p: Phase, id: u32): Option<Phase> {
    match (p, id)
    case (Closed, 256) => Some(AtNew)
    case (AtNew, 257) => Some(AtStarted)
    case (AtStarted, 258) => Some(AtStarted)
    case (AtStarted, 259) => Some(AtFinished)
    case _ => None
  }

  /** The phase a sequence of command ids leads to from `Closed`, if it is a legal sequence. */
  function Run(ids: seq<u32>): Option<Phase> {
    if |ids| == 0 then Some(Closed)
    else match Run(ids[..|ids| - 1])
      case None => None
      case Some(p) => Advance(p, ids[|ids| - 1])
  }

  /** A started launch's ids: 256, 257, then only 258s. */
  predicate StartedIds(ids: seq<u32>) {
    |ids| >= 2 && ids[0] == 256 && ids[1] == 257 && forall i :: 2 <= i < |ids| ==> ids[i] == 258
  }

  /** A complete launch's ids: 256, 257, any number of 258s, and 259. */
  predicate ProtocolTrace(ids: seq<u32>) {
    |ids| >= 3 && StartedIds(ids[..|ids| - 1]) && ids[|ids| - 1] == 259
  }

  /** The automaton reaches `AtStarted` exactly on the ids of a started launch. */
  lemma {:induction false} RunStarted(ids: seq<u32>)
    ensures Run(ids) == Some(AtStarted) <==> StartedIds(ids)
    ensures Run(ids) == Some(AtNew) <==> ids == [256]
    ensures Run(ids) == Some(Closed) <==> ids == []
  {
    if |ids| > 0 {
      var prefix := ids[..|ids| - 1];
      RunStarted(prefix);
      if |ids| > 2 {
        assert StartedIds(ids) ==> StartedIds(prefix);
        assert StartedIds(prefix) && ids[|ids| - 1] == 258 ==> StartedIds(ids);
      }
      if |ids| == 2 {
        assert prefix == [256] <==> ids[0] == 256;
      }
      if |ids| == 1 {
        assert prefix == [];
      }
    }
  }

  /** The automaton reaches `AtFinished` exactly on the ids of a complete launch. */
  lemma RunFinished(ids: seq<u32>)
    ensures Run(ids) == Some(AtFinished) <==> ProtocolTrace(ids)
  {
    if |ids| > 0 {
      RunStarted(ids[..|ids| - 1]);
    }
  }

  lemma StartedLogIds(log: seq<Issued>, kvm: Handle, sev: Handle)
    requires StartedLog(log, kvm, sev)
    ensures StartedIds(Ids(log))
  {
  }

  /** A finished launcher's log is a complete protocol trace. */
  lemma FinishedTrace(f: Launcher<Finished>)
    requires ValidFinished(f)
    ensures ProtocolTrace(Ids(f.log))
  {
    var prefix := f.log[..|f.log| - 1];
    StartedLogIds(prefix, f.kvm, f.sev);
    assert Ids(f.log)[..|f.log| - 1] == Ids(prefix);
  }

  /** Each state's log is one the automaton accepts in the matching phase. */
  lemma ValidLaunchersRun(n: Launcher<New>, s: Launcher<Started>, f: Launcher<Finished>)
    ensures ValidNew(n) ==> Run(Ids(n.log)) == Some(AtNew)
    ensures ValidStarted(s) ==> Run(Ids(s.log)) == Some(AtStarted)
    ensures ValidFinished(f) ==> Run(Ids(f.log)) == Some(AtFinished) && ProtocolTrace(Ids(f.log))
  {
    if ValidNew(n) {
      RunStarted(Ids(n.log));
    }
    if ValidStarted(s) {
      StartedLogIds(s.log, s.kvm, s.sev);
      RunStarted(Ids(s.log));
    }
    if ValidFinished(f) {
      FinishedTrace(f);
      RunFinished(Ids(f.log));
    }
  }

  /** The ids of a complete launch never decrease: init, start, updates, finish. */
  lemma FinishedIdsAscend(f: Launcher<Finished>, i: nat, j: nat)
    requires ValidFinished(f)
    requires i <= j < |f.log|
    ensures f.log[i].command.id <= f.log[j].command.id
  {
    var prefix := f.log[..|f.log| - 1];
    assert forall k :: 0 <= k < |prefix| ==> prefix[k] == f.log[k];
  }

  // ---------------------------------------------------------------- driver

  /** A buffer to encrypt into the guest and its page metadata. */
  datatype Page = Page(buffer: seq<u8>, update: Update)

  /** The update commands for `pages`, in order, as issued on `kvm` naming `sev`. */
  function UpdatesFor(kvm: Handle, sev: Handle, pages: seq<Page>): (log: seq<Issued>)
    ensures |log| == |pages|
    ensures forall i :: 0 <= i < |pages| ==>
              log[i] == IssueOn(kvm, sev, LaunchUpdatePayload(pages[i].buffer, pages[i].update))
  {
    if |pages| == 0 then []
    else UpdatesFor(kvm, sev, pages[..|pages| - 1]) + [IssueOn(kvm, sev, LaunchUpdatePayload(pages[|pages| - 1].buffer, pages[|pages| - 1].update))]
  }

  /** Every answer in `kernel` is a completion. */
  predicate AllCompleted(kernel: seq<Outcome<()>>) {
    forall i :: 0 <= i < |kernel| ==> kernel[i].Completed?
  }

  /** `kernel[i]` is the first failure among the answers, and it reports `e`. */
  predicate FirstFailure(kernel: seq<Outcome<()>>, i: int, e: OsError) {
    0 <= i < |kernel| && kernel[i] == Failed(e) && AllCompleted(kernel[..i])
  }

  lemma AllCompletedConcat(a: seq<Outcome<()>>, b: seq<Outcome<()>>)
    ensures AllCompleted(a + b) <==> AllCompleted(a) && AllCompleted(b)
  {
    if AllCompleted(a + b) {
      assert forall i :: 0 <= i < |a| ==> (a + b)[i] == a[i];
      assert forall i :: 0 <= i < |b| ==> (a + b)[|a| + i] == b[i];
    }
  }

  /** A first failure stays the first failure behind completed answers and before any others. */
  lemma FirstFailureShift(before: seq<Outcome<()>>, answers: seq<Outcome<()>>, after: seq<Outcome<()>>,
                          i: int, e: OsError)
    requires AllCompleted(before)
    requires FirstFailure(answers, i, e)
    ensures FirstFailure(before + answers + after, |before| + i, e)
  {
    var all := before + answers + after;
    assert all[..|before| + i] == before + answers[..i];
    AllCompletedConcat(before, answers[..i]);
  }

  /**
    `update_data` once per page, in order, stopping at the first failure;
    `kernel[i]` answers the i-th update. The failed update was issued, so the
    launcher returned on failure has it logged.
   */
  method AddPages(l: Launcher<Started>, pages: seq<Page>, kernel: seq<Outcome<()>>)
    returns (next: Launcher<Started>, failure: Option<OsError>)
    requires ValidStarted(l)
    requires |kernel| == |pages|
    ensures ValidStarted(next) && next.kvm == l.kvm && next.sev == l.sev
    ensures failure.None? <==> AllCompleted(kernel)
    ensures failure.Some? ==> exists i :: (&& FirstFailure(kernel, i, failure.value)
                                           && next.log == l.log + UpdatesFor(l.kvm, l.sev, pages[..i + 1]))
    ensures failure.None? ==> next.log == l.log + UpdatesFor(l.kvm, l.sev, pages)
  {
    next := l;
    var i := 0;
    while i < |pages|
      invariant 0 <= i <= |pages|
      invariant ValidStarted(next) && next.kvm == l.kvm && next.sev == l.sev
      invariant next.log == l.log + UpdatesFor(l.kvm, l.sev, pages[..i])
      invariant AllCompleted(kernel[..i])
    {
      var updated := UpdateData(next, pages[i].buffer, pages[i].update, kernel[i]);
      assert pages[..i + 1][..i] == pages[..i];
      if updated.result.Err? {
        assert FirstFailure(kernel, i, updated.result.error);
        return updated.launcher, Some(updated.result.error);
      }
      assert kernel[..i + 1] == kernel[..i] + [kernel[i]];
      AllCompletedConcat(kernel[..i], [kernel[i]]);
      next := updated.launcher;
      i := i + 1;
    }
    assert pages[..i] == pages;
    assert kernel[..i] == kernel;
    failure := None;
  }

  /** The launcher after `update_data` of every page, each answered by a completion. */
  function UpdateAll(l: Launcher<Started>, pages: seq<Page>): (r: Launcher<Started>)
    requires ValidStarted(l)
    ensures ValidStarted(r) && r.kvm == l.kvm && r.sev == l.sev
    ensures r.log == l.log + UpdatesFor(l.kvm, l.sev, pages)
    decreases |pages|
  {
    if |pages| == 0 then l
    else
      var last := pages[|pages| - 1];
      UpdateData(UpdateAll(l, pages[..|pages| - 1]), last.buffer, last.update, Completed(())).launcher
  }

  /** The pages a run of update commands was issued for. */
  function PagesOf(log: seq<Issued>): (pages: seq<Page>)
    requires forall i :: 0 <= i < |log| ==> log[i].command.payload.LaunchUpdatePayload?
    ensures |pages| == |log|
    ensures forall i :: 0 <= i < |log| ==>
              LaunchUpdatePayload(pages[i].buffer, pages[i].update) == log[i].command.payload
  {
    seq(|log|, i requires 0 <= i < |log| => Page(log[i].command.payload.buffer, log[i].command.payload.update))
  }

  /**
    Every valid `Started` launcher is the one the transitions build for its
    handles: `NewLauncher`, `StartLaunch` with the start record it logged,
    then `UpdateData` once for each page it logged.
   */
  lemma StartedOnlyFromTransitions(l: Launcher<Started>)
    requires ValidStarted(l)
    ensures var n := NewLauncher(l.kvm, l.sev, Completed(())).result.value;
            var s := StartLaunch(n, l.log[1].command.payload.start, Completed(())).result.value;
            UpdateAll(s, PagesOf(l.log[2..])) == l
  {
    var n := NewLauncher(l.kvm, l.sev, Completed(())).result.value;
    var start := l.log[1].command.payload.start;
    var s := StartLaunch(n, start, Completed(())).result.value;
    var rest := l.log[2..];
    var pages := PagesOf(rest);
    var updates := UpdatesFor(l.kvm, l.sev, pages);
    assert l.log[0] == IssueOn(l.kvm, l.sev, InitPayload(Init(0)));
    assert l.log[1] == IssueOn(l.kvm, l.sev, LaunchStartPayload(start));
    forall i | 0 <= i < |rest|
      ensures updates[i] == rest[i]
    {
      assert rest[i] == l.log[i + 2];
    }
    assert s.log == l.log[..2];
    assert l.log == l.log[..2] + rest;
    var r := UpdateAll(s, pages);
    assert r.log == l.log;
    assert r.state == l.state;
  }

  /** The log of the full launch, in issue order. */
  function LaunchLog(kvm: Handle, sev: Handle, start: Start, pages: seq<Page>, finish: Finish)
    : seq<Issued>
  {
    [IssueOn(kvm, sev, InitPayload(Init(0))), IssueOn(kvm, sev, LaunchStartPayload(start))]
    + UpdatesFor(kvm, sev, pages)
    + [IssueOn(kvm, sev, LaunchFinishPayload(finish))]
  }

  /**
    The whole launch as a caller drives it: `new`, `start`, one `update_data`
    per page, `finish`, stopping at the first failure. `kernel[i]` is the
    kernel's answer to the i-th ioctl.
   */
  method LaunchGuest(kvm: Handle, sev: Handle, start: Start, pages: seq<Page>, finish: Finish,
                     kernel: seq<Outcome<()>>)
    returns (r: Result<Launcher<Finished>, OsError>)
    requires |kernel| == |pages| + 3
    ensures r.Ok? <==> AllCompleted(kernel)
    ensures r.Err? ==> exists i :: FirstFailure(kernel, i, r.error)
    ensures r.Ok? ==> ValidFinished(r.value) && r.value.kvm == kvm && r.value.sev == sev
    ensures r.Ok? ==> ProtocolTrace(Ids(r.value.log))
    ensures r.Ok? ==> r.value.log == LaunchLog(kvm, sev, start, pages, finish)
  {
    var last := |pages| + 2;
    var head, updates, tail := kernel[..2], kernel[2..last], kernel[last..];
    assert kernel == head + updates + tail;
    var created := NewLauncher(kvm, sev, kernel[0]);
    if created.result.Err? {
      assert FirstFailure(kernel, 0, created.result.error);
      return Err(created.result.error);
    }
    var started := StartLaunch(created.result.value, start, kernel[1]);
    if started.result.Err? {
      assert FirstFailure(kernel, 1, started.result.error);
      return Err(started.result.error);
    }
    assert AllCompleted(head);
    var l, failure := AddPages(started.result.value, pages, updates);
    if failure.Some? {
      var i :| FirstFailure(updates, i, failure.value);
      FirstFailureShift(head, updates, tail, i, failure.value);
      return Err(failure.value);
    }
    AllCompletedConcat(head, updates);
    var finished := FinishLaunch(l, finish, kernel[last]);
    if finished.result.Err? {
      FirstFailureShift(head + updates, tail, [], 0, finished.result.error);
      assert head + updates + tail + [] == kernel;
      return Err(finished.result.error);
    }
    assert AllCompleted(tail);
    AllCompletedConcat(head + updates, tail);
    var init := IssueOn(kvm, sev, InitPayload(Init(0)));
    assert created.result.value.log == [init];
    assert l.log == [init, started.issued] + UpdatesFor(kvm, sev, pages);
    r := Ok(finished.result.value);
    FinishedTrace(r.value);
  }
}
