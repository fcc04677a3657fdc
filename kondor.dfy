/** The extension-detection retry machine (`KondorInitializer` in js/kondor-init.js).
    Whether `window.kondor.getAccounts` is a function at a given moment is an input; the
    500 ms timer is modelled as calls of `Tick`, one per timer firing. */
module Kondor {
  import opened Wrappers

  const MAX_ATTEMPTS: nat := 10

  /** A registered status listener; `throws` says whether calling it raises. */
  datatype Listener = Listener(id: nat, throws: bool)

  /** The argument of `onStatusChange`: anything that is not a function, or a function. */
  datatype Callback = NotAFunction | Function(listener: Listener)

  /** One invocation of a listener with a status. */
  datatype Call = Call(listener: Listener, status: bool)

  /** The detection state: `isKondorReady`, `checkAttempts`, and whether the interval
      timer is running. */
  datatype Machine = Machine(ready: bool, attempts: nat, polling: bool)

  /** The states the machine can reach. */
  predicate Reachable(m: Machine) {
    && m.attempts <= MAX_ATTEMPTS
    && (m.ready ==> !m.polling)
    && (m.polling ==> m.attempts < MAX_ATTEMPTS)
  }

  /** Whether detection has been decided, which is the condition `onStatusChange` uses to
      call a new listener at once. */
  predicate Decided(m: Machine) {
    m.ready || m.attempts >= MAX_ATTEMPTS
  }

  /** `initialize` on a fresh machine: ready at once when the extension is there,
      otherwise the timer starts. */
  function Start(detected: bool): (m: Machine)
    ensures Reachable(m) && m.attempts == 0
    ensures m.ready <==> detected
    ensures m.polling <==> !detected
  {
    if detected then Machine(true, 0, false) else Machine(false, 0, true)
  }

  /** One firing of the timer. */
  function TickStep(m: Machine, detected: bool): (r: Machine)
    requires Reachable(m) && m.polling
    ensures Reachable(r)
    ensures r.attempts == m.attempts + 1
    ensures r.ready <==> detected
    ensures !r.polling <==> detected || r.attempts == MAX_ATTEMPTS
  {
    var attempts := m.attempts + 1;
    if detected then Machine(true, attempts, false)
    else if attempts >= MAX_ATTEMPTS then Machine(false, attempts, false)
    else Machine(false, attempts, true)
  }

  /** The machine after the timer would have fired once per element of `detections`;
      once the timer is cleared no further firing happens. */
  function Run(m: Machine, detections: seq<bool>): (r: Machine)
    requires Reachable(m)
    ensures Reachable(r)
    decreases |detections|
  {
    if detections == [] || !m.polling then m
    else Run(TickStep(m, detections[0]), detections[1..])
  }

  /** A stopped machine never changes again; in particular readiness is never reset. */
  lemma StoppedStaysStopped(m: Machine, detections: seq<bool>)
    requires Reachable(m) && !m.polling
    ensures Run(m, detections) == m
  {
  }

  /** From a polling machine, the run ends ready exactly when the extension shows up
      within the remaining attempts, and it is still polling exactly when it neither
      found it nor used up the attempts. */
  lemma {:induction false} RunWhilePolling(m: Machine, detections: seq<bool>)
    requires Reachable(m) && m.polling
    ensures var r := Run(m, detections);
      && (r.ready <==> exists i :: 0 <= i < |detections| && i < MAX_ATTEMPTS - m.attempts && detections[i])
      && (r.polling <==> |detections| < MAX_ATTEMPTS - m.attempts && forall i :: 0 <= i < |detections| ==> !detections[i])
    decreases |detections|
  {
    if detections == [] {
    } else {
      var next := TickStep(m, detections[0]);
      var rest := detections[1..];
      assert forall i :: 0 <= i < |rest| ==> rest[i] == detections[i + 1];
      if next.polling {
        RunWhilePolling(next, rest);
        assert (exists i :: 0 <= i < |detections| && i < MAX_ATTEMPTS - m.attempts && detections[i])
           <==> (exists i :: 0 <= i < |rest| && i < MAX_ATTEMPTS - next.attempts && rest[i]) by {
          forall i | 0 <= i < |detections| && i < MAX_ATTEMPTS - m.attempts && detections[i]
            ensures 0 <= i - 1 < |rest| && i - 1 < MAX_ATTEMPTS - next.attempts && rest[i - 1]
          {
            assert i != 0;
          }
        }
      } else {
        StoppedStaysStopped(next, rest);
        if !detections[0] {
          assert next.attempts == MAX_ATTEMPTS;
          forall i | 0 <= i < |detections| && i < MAX_ATTEMPTS - m.attempts
            ensures !detections[i]
          {
          }
        }
      }
    }
  }

  /** The whole life of the machine: ready exactly when the extension is present at
      `initialize` or at one of the first ten ticks; given up exactly when all ten ticks
      missed it; never more than ten attempts. */
  lemma DetectionOutcome(atStart: bool, detections: seq<bool>)
    ensures var r := Run(Start(atStart), detections);
      && r.attempts <= MAX_ATTEMPTS
      && (r.ready <==> atStart || exists i :: 0 <= i < |detections| && i < MAX_ATTEMPTS && detections[i])
      && (!r.ready && !r.polling <==>
            !atStart && |detections| >= MAX_ATTEMPTS && forall i :: 0 <= i < MAX_ATTEMPTS ==> !detections[i])
  {
    if !atStart {
      RunWhilePolling(Start(false), detections);
    }
  }

  /** The calls `notifyListeners(status)` makes: every listener, in registration order,
      whether or not earlier ones threw. */
  function Notified(listeners: seq<Listener>, status: bool): (r: seq<Call>)
    ensures |r| == |listeners|
    ensures forall i :: 0 <= i < |r| ==> r[i] == Call(listeners[i], status)
  {
    if listeners == [] then []
    else Notified(listeners[..|listeners| - 1], status) + [Call(listeners[|listeners| - 1], status)]
  }

  class KondorInitializer {
    var isKondorReady: bool
    var checkAttempts: nat
    /** Whether the interval timer is running. */
    var polling: bool
    const maxAttempts: nat
    var listeners: seq<Listener>
    /** The listener invocations made so far, in order. */
    var calls: seq<Call>
    /** What the promise of `initialize` resolved to, once it has. */
    var resolved: Option<bool>

    function State(): Machine
      reads this
    {
      Machine(isKondorReady, checkAttempts, polling)
    }

    ghost predicate Valid()
      reads this
    {
      && maxAttempts == MAX_ATTEMPTS
      && Reachable(State())
      && (resolved.Some? ==> resolved.value == isKondorReady && Decided(State()))
    }

    constructor()
      ensures Valid()
      ensures State() == Machine(false, 0, false)
      ensures listeners == [] && calls == [] && resolved == None
    {
      isKondorReady := false;
      checkAttempts := 0;
      polling := false;
      maxAttempts := 10;
      listeners := [];
      calls := [];
      resolved := None;
    }

    /** `initialize`, run once on a fresh machine. */
    method Initialize(detected: bool)
      requires Valid() && State() == Machine(false, 0, false) && resolved.None?
      modifies this
      ensures Valid()
      ensures State() == Start(detected)
      ensures listeners == old(listeners)
      ensures calls == old(calls) + (if detected then Notified(listeners, true) else [])
      ensures resolved == if detected then Some(true) else None
    {
      if detected {
        isKondorReady := true;
        NotifyListeners(true);
        resolved := Some(true);
      } else {
        polling := true;
      }
    }

    /** One firing of the 500 ms timer. */
    method Tick(detected: bool)
      requires Valid() && polling
      modifies this
      ensures Valid()
      ensures State() == TickStep(old(State()), detected)
      ensures listeners == old(listeners)
      ensures calls == old(calls) + (if polling then [] else Notified(listeners, detected))
      ensures resolved == if polling then old(resolved) else Some(detected)
    {
      checkAttempts := checkAttempts + 1;
      if detected {
        isKondorReady := true;
        polling := false;
        NotifyListeners(true);
        resolved := Some(true);
      } else if checkAttempts >= maxAttempts {
        polling := false;
        NotifyListeners(false);
        resolved := Some(false);
      }
    }

    /** `onStatusChange`: a function is registered and, when detection is already
        decided, called at once outside any `try` (so its exception propagates). */
    method OnStatusChange(callback: Callback) returns (threw: bool)
      requires Valid()
      modifies this
      ensures Valid() && State() == old(State()) && resolved == old(resolved)
      ensures callback.NotAFunction? ==> listeners == old(listeners) && calls == old(calls) && !threw
      ensures callback.Function? ==>
        && listeners == old(listeners) + [callback.listener]
        && calls == old(calls) + (if Decided(State()) then [Call(callback.listener, isKondorReady)] else [])
        && (threw <==> Decided(State()) && callback.listener.throws)
    {
      threw := false;
      if callback.Function? {
        listeners := listeners + [callback.listener];
        if isKondorReady || checkAttempts >= maxAttempts {
          calls := calls + [Call(callback.listener, isKondorReady)];
          threw := callback.listener.throws;
        }
      }
    }

    /** `notifyListeners`: each listener is called inside its own `try`. */
    method NotifyListeners(status: bool)
      modifies this
      ensures calls == old(calls) + Notified(listeners, status)
      ensures listeners == old(listeners) && State() == old(State()) && resolved == old(resolved)
    {
      var i := 0;
      while i < |listeners|
        invariant 0 <= i <= |listeners|
        invariant calls == old(calls) + Notified(listeners[..i], status)
        invariant listeners == old(listeners) && State() == old(State()) && resolved == old(resolved)
      {
        assert listeners[..i + 1][..i] == listeners[..i];
        calls := calls + [Call(listeners[i], status)];  // a throw is caught and the loop goes on
        i := i + 1;
      }
      assert listeners[..i] == listeners;
    }
  }
}
