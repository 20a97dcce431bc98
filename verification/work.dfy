// detect/work.go: the worker pool as a protocol. Work feeds hosts to the workers over an unbuffered
// channel, the workers test them and send what they found over another one to a collector, and Work
// returns once the collector reports that it is done. Every interleaving is a sequence of steps.
module WorkerPool {

  // Hosts are given by their addresses.
  type Host = string

  type Finding(==,!new)

  // A goroutine of workers(): waiting for a host, testing one, or sending what it found.
  datatype Worker = Idle | Testing(host: Host) | Sending(host: Host) | Gone

  // Where Work stands: feeding hosts, waiting for the workers, waiting for the collector, returned.
  datatype Stage = Feeding | Joining | Draining | Returned

  // The collector takes findings, then reports that it is done, then ends.
  datatype Collector = Taking | Reporting | Ended

  datatype Pool = Pool(
    pending: seq<Host>,          // hosts Work has not sent yet
    workers: seq<Worker>,
    stage: Stage,
    collector: Collector,
    tested: seq<Host>,           // hosts that were tested, in this order
    collected: seq<Host>,        // hosts whose findings were collected, in this order
    result: seq<Finding>)

  // A step of one or two goroutines; receiving from an unbuffered channel is one step with sending.
  datatype Step = Take(i: nat) | Test(i: nat) | Hit(i: nat) | CloseHosts | Leave(i: nat) | CloseHits | Report | Return

  type Probe = Host -> seq<Finding>

  function Init(hosts: seq<Host>, num: nat): Pool {
    Pool(hosts, seq(num, _ => Idle), Feeding, Taking, [], [], [])
  }

  // The hosts channel is closed once Work has left the feeding stage, the hits channel once it has
  // left the joining stage.
  predicate Enabled(p: Pool, step: Step) {
    match step
    case Take(i) => i < |p.workers| && p.workers[i].Idle? && p.stage.Feeding? && p.pending != []
    case Test(i) => i < |p.workers| && p.workers[i].Testing?
    case Hit(i) => i < |p.workers| && p.workers[i].Sending? && p.collector.Taking?
    case CloseHosts => p.stage.Feeding? && p.pending == []
    case Leave(i) => i < |p.workers| && p.workers[i].Idle? && !p.stage.Feeding?
    case CloseHits => p.stage.Joining? && forall i :: 0 <= i < |p.workers| ==> p.workers[i].Gone?
    case Report => p.collector.Taking? && p.stage.Draining?
    case Return => p.stage.Draining? && p.collector.Reporting?
  }

  function Next(p: Pool, probe: Probe, step: Step): Pool
    requires Enabled(p, step)
  {
    match step
    case Take(i) => p.(pending := p.pending[1..], workers := p.workers[i := Testing(p.pending[0])])
    case Test(i) =>
      var host := p.workers[i].host;
      p.(workers := p.workers[i := Sending(host)], tested := p.tested + [host])
    case Hit(i) =>
      var host := p.workers[i].host;
      p.(workers := p.workers[i := Idle], collected := p.collected + [host], result := p.result + probe(host))
    case CloseHosts => p.(stage := Joining)
    case Leave(i) => p.(workers := p.workers[i := Gone])
    case CloseHits => p.(stage := Draining)
    case Report => p.(collector := Reporting)
    case Return => p.(stage := Returned, collector := Ended)
  }

  // How often the workers have a host in hand
  function InHand(workers: seq<Worker>, h: Host): nat {
    if workers == [] then 0 else InHand(workers[..|workers| - 1], h) + Held(workers[|workers| - 1], h)
  }

  function Held(w: Worker, h: Host): nat { if (w.Testing? || w.Sending?) && w.host == h then 1 else 0 }

  // ... and how often they have tested it
  function Found(workers: seq<Worker>, h: Host): nat {
    if workers == [] then 0 else Found(workers[..|workers| - 1], h) + HeldTested(workers[|workers| - 1], h)
  }

  function HeldTested(w: Worker, h: Host): nat { if w.Sending? && w.host == h then 1 else 0 }

  function Count(s: seq<Host>, h: Host): nat { multiset(s)[h] }

  function Findings(probe: Probe, hosts: seq<Host>): seq<Finding> {
    if hosts == [] then [] else Findings(probe, hosts[..|hosts| - 1]) + probe(hosts[|hosts| - 1])
  }

  // How often testing these hosts has this finding
  function Times(probe: Probe, hosts: seq<Host>, f: Finding): nat {
    if hosts == [] then 0 else multiset(probe(hosts[|hosts| - 1]))[f] + Times(probe, hosts[..|hosts| - 1], f)
  }

  lemma {:induction false} FindingsCount(probe: Probe, hosts: seq<Host>, f: Finding)
    ensures multiset(Findings(probe, hosts))[f] == Times(probe, hosts, f)
  {
    if hosts != [] { FindingsCount(probe, hosts[..|hosts| - 1], f); }
  }

  lemma {:induction false} TimesWithout(probe: Probe, hosts: seq<Host>, f: Finding, i: nat)
    requires i < |hosts|
    ensures Times(probe, hosts, f) == multiset(probe(hosts[i]))[f] + Times(probe, hosts[..i] + hosts[i + 1..], f)
  {
    var n := |hosts| - 1;
    if i < n {
      TimesWithout(probe, hosts[..n], f, i);
      var without := hosts[..i] + hosts[i + 1..];
      assert without[..n - 1] == hosts[..n][..i] + hosts[..n][i + 1..];
    } else {
      assert hosts[..i] + hosts[i + 1..] == hosts[..n];
    }
  }

  lemma WithoutOne(s: seq<Host>, i: nat)
    requires i < |s|
    ensures multiset(s[..i] + s[i + 1..]) == multiset(s) - multiset{s[i]}
  {
    assert s == s[..i] + [s[i]] + s[i + 1..];
  }

  // The order in which hosts are tested does not matter to how often something is found.
  lemma {:induction false} TimesPermuted(probe: Probe, a: seq<Host>, b: seq<Host>, f: Finding)
    requires multiset(a) == multiset(b)
    ensures Times(probe, a, f) == Times(probe, b, f)
    decreases |a|
  {
    if a == [] {
      assert |b| == |multiset(b)| == |multiset(a)| == 0;
    } else {
      var n := |a| - 1;
      WithoutOne(a, n);
      assert a[..n] + a[n + 1..] == a[..n];
      assert a[n] in multiset(b);
      var i :| 0 <= i < |b| && b[i] == a[n];
      var without := b[..i] + b[i + 1..];
      WithoutOne(b, i);
      TimesPermuted(probe, a[..n], without, f);
      TimesWithout(probe, b, f, i);
    }
  }

  // No host is lost or doubled, and none is tested twice.
  predicate Counts(p: Pool, hosts: seq<Host>, h: Host) {
    && Count(p.pending, h) + InHand(p.workers, h) + Count(p.collected, h) == Count(hosts, h)
    && Count(p.tested, h) == Found(p.workers, h) + Count(p.collected, h)
  }

  ghost predicate Inv(p: Pool, probe: Probe, hosts: seq<Host>) {
    && (forall h :: Counts(p, hosts, h))
    && p.result == Findings(probe, p.collected)
    && (!p.stage.Feeding? ==> p.pending == [])
    && (p.stage.Draining? || p.stage.Returned? ==> forall i :: 0 <= i < |p.workers| ==> p.workers[i].Gone?)
    && (p.stage.Feeding? ==> forall i :: 0 <= i < |p.workers| ==> !p.workers[i].Gone?)
    && (p.stage.Returned? <==> p.collector.Ended?)
    && (p.collector.Reporting? ==> p.stage.Draining?)
  }

  lemma {:induction false} WorkerUpdate(workers: seq<Worker>, i: nat, w: Worker, h: Host)
    requires i < |workers|
    ensures InHand(workers[i := w], h) + Held(workers[i], h) == InHand(workers, h) + Held(w, h)
    ensures Found(workers[i := w], h) + HeldTested(workers[i], h) == Found(workers, h) + HeldTested(w, h)
  {
    var n := |workers| - 1;
    if i == n {
      assert workers[i := w][..n] == workers[..n];
    } else {
      assert workers[i := w][..n] == workers[..n][i := w];
      WorkerUpdate(workers[..n], i, w, h);
    }
  }

  lemma {:induction false} IdleHoldNothing(workers: seq<Worker>, h: Host)
    requires forall i :: 0 <= i < |workers| ==> workers[i].Idle? || workers[i].Gone?
    ensures InHand(workers, h) == 0 == Found(workers, h)
  {
    if workers != [] {
      IdleHoldNothing(workers[..|workers| - 1], h);
    }
  }

  lemma InitInv(hosts: seq<Host>, num: nat, probe: Probe)
    ensures Inv(Init(hosts, num), probe, hosts)
  {
    forall h ensures Counts(Init(hosts, num), hosts, h) {
      IdleHoldNothing(Init(hosts, num).workers, h);
    }
  }

  lemma CountFirst(s: seq<Host>, h: Host)
    requires s != []
    ensures Count(s, h) == Count(s[1..], h) + if s[0] == h then 1 else 0
  {
    assert s == [s[0]] + s[1..];
  }

  lemma CountAppend(s: seq<Host>, host: Host, h: Host)
    ensures Count(s + [host], h) == Count(s, h) + if host == h then 1 else 0
  {
  }

  lemma NextCounts(p: Pool, probe: Probe, hosts: seq<Host>, step: Step, h: Host)
    requires Counts(p, hosts, h) && Enabled(p, step)
    ensures Counts(Next(p, probe, step), hosts, h)
  {
    match step
    case Take(i) =>
      WorkerUpdate(p.workers, i, Testing(p.pending[0]), h);
      CountFirst(p.pending, h);
    case Test(i) =>
      WorkerUpdate(p.workers, i, Sending(p.workers[i].host), h);
      CountAppend(p.tested, p.workers[i].host, h);
    case Hit(i) =>
      WorkerUpdate(p.workers, i, Idle, h);
      CountAppend(p.collected, p.workers[i].host, h);
    case Leave(i) => WorkerUpdate(p.workers, i, Gone, h);
    case _ =>
  }

  lemma NextKeepsInv(p: Pool, probe: Probe, hosts: seq<Host>, step: Step)
    requires Inv(p, probe, hosts) && Enabled(p, step)
    ensures Inv(Next(p, probe, step), probe, hosts)
  {
    forall h ensures Counts(Next(p, probe, step), hosts, h) {
      NextCounts(p, probe, hosts, step, h);
    }
    if step.Hit? {
      var collected := p.collected + [p.workers[step.i].host];
      assert collected[..|p.collected|] == p.collected;
    }
  }

  // ---------------------------------------------------------------- runs

  // A run: every step was enabled.
  predicate IsRun(p: Pool, probe: Probe, steps: seq<Step>)
    decreases |steps|, 0
  {
    if steps == [] then true
    else
      var before := steps[..|steps| - 1];
      IsRun(p, probe, before) && Enabled(After(p, probe, before), steps[|steps| - 1])
  }

  function After(p: Pool, probe: Probe, steps: seq<Step>): Pool
    requires IsRun(p, probe, steps)
    decreases |steps|, 1
  {
    if steps == [] then p else Next(After(p, probe, steps[..|steps| - 1]), probe, steps[|steps| - 1])
  }

  // At every moment of every run the queued, held and collected hosts together are the input, and a
  // host has been tested once for every time it left its worker or waits to.
  lemma {:induction false} RunInvariant(hosts: seq<Host>, num: nat, probe: Probe, steps: seq<Step>)
    requires IsRun(Init(hosts, num), probe, steps)
    ensures Inv(After(Init(hosts, num), probe, steps), probe, hosts)
  {
    if steps == [] {
      InitInv(hosts, num, probe);
    } else {
      var before := steps[..|steps| - 1];
      RunInvariant(hosts, num, probe, before);
      NextKeepsInv(After(Init(hosts, num), probe, before), probe, hosts, steps[|steps| - 1]);
    }
  }

  // When Work returns, every host has been tested exactly as often as it was given, everything
  // found has been collected, and all workers have gone.
  lemma ReturnedIsComplete(hosts: seq<Host>, num: nat, probe: Probe, steps: seq<Step>)
    requires IsRun(Init(hosts, num), probe, steps)
    requires After(Init(hosts, num), probe, steps).stage.Returned?
    ensures var p := After(Init(hosts, num), probe, steps);
      && multiset(p.tested) == multiset(hosts) == multiset(p.collected)
      && p.result == Findings(probe, p.collected)
      && forall i :: 0 <= i < |p.workers| ==> p.workers[i].Gone?
  {
    RunInvariant(hosts, num, probe, steps);
    var p := After(Init(hosts, num), probe, steps);
    forall h ensures Count(p.tested, h) == Count(hosts, h) == Count(p.collected, h) {
      IdleHoldNothing(p.workers, h);
      assert Counts(p, hosts, h);
    }
    assert forall h :: multiset(p.tested)[h] == Count(p.tested, h);
    assert forall h :: multiset(hosts)[h] == Count(hosts, h) && multiset(p.collected)[h] == Count(p.collected, h);
  }

  // So each finding is in the result as often as testing the given hosts has it.
  lemma ReturnedFindsAll(hosts: seq<Host>, num: nat, probe: Probe, steps: seq<Step>, f: Finding)
    requires IsRun(Init(hosts, num), probe, steps)
    requires After(Init(hosts, num), probe, steps).stage.Returned?
    ensures multiset(After(Init(hosts, num), probe, steps).result)[f] == Times(probe, hosts, f)
  {
    ReturnedIsComplete(hosts, num, probe, steps);
    var p := After(Init(hosts, num), probe, steps);
    FindingsCount(probe, p.collected, f);
    TimesPermuted(probe, p.collected, hosts, f);
  }

  lemma {:induction false} WorkersStay(hosts: seq<Host>, num: nat, probe: Probe, steps: seq<Step>)
    requires IsRun(Init(hosts, num), probe, steps)
    ensures |After(Init(hosts, num), probe, steps).workers| == num
  {
    if steps != [] { WorkersStay(hosts, num, probe, steps[..|steps| - 1]); }
  }

  ghost predicate Stuck(p: Pool) { forall step :: !Enabled(p, step) }

  lemma SomethingEnabled(p: Pool, probe: Probe, hosts: seq<Host>)
    requires Inv(p, probe, hosts) && !p.stage.Returned?
    requires p.workers == [] ==> p.pending == []
    ensures !Stuck(p)
  {
    if i :| 0 <= i < |p.workers| && p.workers[i].Testing? {
      assert Enabled(p, Test(i));
    } else if i :| 0 <= i < |p.workers| && p.workers[i].Sending? {
      assert Enabled(p, Hit(i));
    } else if p.stage.Feeding? {
      assert p.pending != [] ==> Enabled(p, Take(0));
      assert p.pending == [] ==> Enabled(p, CloseHosts);
    } else if p.stage.Joining? {
      if i :| 0 <= i < |p.workers| && p.workers[i].Idle? {
        assert Enabled(p, Leave(i));
      } else {
        assert Enabled(p, CloseHits);
      }
    } else {
      assert p.collector.Taking? ==> Enabled(p, Report);
      assert p.collector.Reporting? ==> Enabled(p, Return);
    }
  }

  // After this run Work has returned or something can still happen.
  ghost predicate GoesOn(hosts: seq<Host>, num: nat, probe: Probe, steps: seq<Step>) {
    IsRun(Init(hosts, num), probe, steps) ==>
      var p := After(Init(hosts, num), probe, steps); p.stage.Returned? || !Stuck(p)
  }

  // Every run can go on until Work returns, exactly if there is a worker or nothing to do.
  lemma NeverStuckExactly(hosts: seq<Host>, num: nat, probe: Probe)
    ensures num >= 1 || hosts == [] <==> forall steps :: GoesOn(hosts, num, probe, steps)
  {
    if num >= 1 || hosts == [] {
      forall steps ensures GoesOn(hosts, num, probe, steps) {
        if IsRun(Init(hosts, num), probe, steps) {
          var p := After(Init(hosts, num), probe, steps);
          RunInvariant(hosts, num, probe, steps);
          WorkersStay(hosts, num, probe, steps);
          if hosts == [] { PendingFromHosts(p, probe, hosts); }
          if !p.stage.Returned? { SomethingEnabled(p, probe, hosts); }
        }
      }
    } else {
      assert !GoesOn(hosts, num, probe, []);
    }
  }

  lemma PendingFromHosts(p: Pool, probe: Probe, hosts: seq<Host>)
    requires Inv(p, probe, hosts) && hosts == []
    ensures p.pending == []
  {
    if p.pending != [] {
      assert Counts(p, hosts, p.pending[0]);
      CountFirst(p.pending, p.pending[0]);
      assert false;
    }
  }

  // What is left to do; every step does some of it.
  function Left(w: Worker): nat {
    match w
    case Testing(_) => 3
    case Sending(_) => 2
    case Idle => 1
    case Gone => 0
  }

  function LeftAll(workers: seq<Worker>): nat {
    if workers == [] then 0 else LeftAll(workers[..|workers| - 1]) + Left(workers[|workers| - 1])
  }

  function Measure(p: Pool): nat {
    3 * |p.pending| + LeftAll(p.workers)
    + (match p.stage case Feeding => 3 case Joining => 2 case Draining => 1 case Returned => 0)
    + (match p.collector case Taking => 2 case Reporting => 1 case Ended => 0)
  }

  lemma {:induction false} LeftUpdate(workers: seq<Worker>, i: nat, w: Worker)
    requires i < |workers|
    ensures LeftAll(workers[i := w]) + Left(workers[i]) == LeftAll(workers) + Left(w)
  {
    var n := |workers| - 1;
    if i == n {
      assert workers[i := w][..n] == workers[..n];
    } else {
      assert workers[i := w][..n] == workers[..n][i := w];
      LeftUpdate(workers[..n], i, w);
    }
  }

  lemma StepMakesProgress(p: Pool, probe: Probe, step: Step)
    requires Enabled(p, step)
    ensures Measure(Next(p, probe, step)) < Measure(p)
  {
    match step
    case Take(i) => LeftUpdate(p.workers, i, Testing(p.pending[0]));
    case Test(i) => LeftUpdate(p.workers, i, Sending(p.workers[i].host));
    case Hit(i) => LeftUpdate(p.workers, i, Idle);
    case Leave(i) => LeftUpdate(p.workers, i, Gone);
    case _ =>
  }

  // No run is longer than three steps a host, one a worker and five more: Work always returns.
  lemma {:induction false} RunsAreBounded(hosts: seq<Host>, num: nat, probe: Probe, steps: seq<Step>)
    requires IsRun(Init(hosts, num), probe, steps)
    ensures |steps| + Measure(After(Init(hosts, num), probe, steps)) <= 3 * |hosts| + num + 5
  {
    if steps == [] {
      IdleLeft(num);
    } else {
      var before := steps[..|steps| - 1];
      RunsAreBounded(hosts, num, probe, before);
      StepMakesProgress(After(Init(hosts, num), probe, before), probe, steps[|steps| - 1]);
    }
  }

  lemma {:induction false} IdleLeft(num: nat)
    ensures LeftAll(seq(num, _ => Idle)) == num
  {
    if num > 0 {
      IdleLeft(num - 1);
      assert seq(num, _ => Idle)[..num - 1] == seq(num - 1, _ => Idle);
    }
  }
}
