/**
 * The obstacle horn loop of the sound process (aqx-bot/sound.py, main) and
 * its shutdown routine.  Each iteration reads the ultrasonic distance; below
 * the danger distance it sounds the horn and waits one second, otherwise it
 * waits 0.2 seconds.  The loop keeps no state between iterations.
 */
module SoundProcess {
  import opened Audio
  import Picar

  const DangerDistance: real := 20.0  // cm
  const HornBackoff: real := 1.0      // seconds waited after a horn
  const IdlePoll: real := 0.2         // seconds waited otherwise

  function HornCount(t: seq<SoundCall>): nat
    decreases |t|
  {
    if t == [] then 0 else (if t[0] == Horn then 1 else 0) + HornCount(t[1..])
  }

  lemma {:induction false} HornCountConcat(a: seq<SoundCall>, b: seq<SoundCall>)
    ensures HornCount(a + b) == HornCount(a) + HornCount(b)
    decreases |a|
  {
    if a == [] {
      assert a + b == b;
    } else {
      assert (a + b)[0] == a[0];
      assert (a + b)[1..] == a[1..] + b;
      HornCountConcat(a[1..], b);
    }
  }

  /** The total time a sequence of calls spends sleeping. */
  function Waited(t: seq<SoundCall>): real
    decreases |t|
  {
    if t == [] then 0.0 else (if t[0].Sleep? then t[0].seconds else 0.0) + Waited(t[1..])
  }

  /**
   * One iteration: a horn only when strictly closer than the danger
   * distance, and the iteration always ends by waiting — 1 s after a horn,
   * 0.2 s otherwise.
   */
  function ObstacleStep(distance: real): (r: seq<SoundCall>)
    ensures HornCount(r) == (if distance < DangerDistance then 1 else 0)
    ensures |r| > 0 && r[|r| - 1] == Sleep(if distance < DangerDistance then HornBackoff else IdlePoll)
    ensures forall i :: 0 <= i < |r| ==> r[i] == Horn || r[i].Sleep?
    ensures forall i :: 0 <= i < |r| && r[i] == Horn ==> i == 0 && r[1] == Sleep(HornBackoff)
    ensures |r| == HornCount(r) + 1
    ensures Waited(r) == if distance < DangerDistance then HornBackoff else IdlePoll
  {
    if distance < DangerDistance then
      var r := [Horn, Sleep(HornBackoff)];
      assert r[1..] == [Sleep(HornBackoff)] && r[1..][1..] == [];
      assert HornCount(r[1..]) == 0;
      assert Waited(r[1..]) == HornBackoff;
      r
    else
      var r := [Sleep(IdlePoll)];
      assert r[1..] == [];
      r
  }

  lemma {:induction false} WaitedConcat(a: seq<SoundCall>, b: seq<SoundCall>)
    ensures Waited(a + b) == Waited(a) + Waited(b)
    decreases |a|
  {
    if a == [] {
      assert a + b == b;
    } else {
      assert (a + b)[0] == a[0];
      assert (a + b)[1..] == a[1..] + b;
      WaitedConcat(a[1..], b);
    }
  }

  /** Every call is a horn or a wait. */
  predicate HornsAndWaits(t: seq<SoundCall>) {
    forall i :: 0 <= i < |t| ==> t[i] == Horn || t[i].Sleep?
  }

  lemma HornsAndWaitsConcat(a: seq<SoundCall>, b: seq<SoundCall>)
    requires HornsAndWaits(a) && HornsAndWaits(b)
    ensures HornsAndWaits(a + b)
  {
    forall i | 0 <= i < |a + b|
      ensures (a + b)[i] == Horn || (a + b)[i].Sleep?
    {
      if i >= |a| {
        assert (a + b)[i] == b[i - |a|];
      }
    }
  }

  /** How many of the readings are strictly below the danger distance. */
  function CountBelow(distances: seq<real>): (n: nat)
    ensures n <= |distances|
    decreases |distances|
  {
    if distances == [] then 0
    else CountBelow(distances[..|distances| - 1]) + (if distances[|distances| - 1] < DangerDistance then 1 else 0)
  }

  /**
   * The calls of a run of iterations, given the distance each one read: one
   * horn per reading below the danger distance, one wait per reading, and in
   * all 1 s of waiting per horn and 0.2 s per other reading.
   */
  function Trace(distances: seq<real>): (t: seq<SoundCall>)
    ensures HornsAndWaits(t)
    ensures HornCount(t) == CountBelow(distances)
    ensures |t| == |distances| + CountBelow(distances)
    ensures Waited(t) == HornBackoff * CountBelow(distances) as real
                         + IdlePoll * (|distances| - CountBelow(distances)) as real
    decreases |distances|
  {
    if distances == [] then []
    else
      var before := Trace(distances[..|distances| - 1]);
      var step := ObstacleStep(distances[|distances| - 1]);
      HornCountConcat(before, step);
      WaitedConcat(before, step);
      HornsAndWaitsConcat(before, step);
      before + step
  }

  /** Every horn is immediately followed by the 1 s back-off; every sleep is 1 s or 0.2 s. */
  predicate WellSpaced(t: seq<SoundCall>) {
    (forall i :: 0 <= i < |t| && t[i] == Horn ==> i + 1 < |t| && t[i + 1] == Sleep(HornBackoff))
    && (forall i :: 0 <= i < |t| && t[i].Sleep? ==> t[i].seconds == HornBackoff || t[i].seconds == IdlePoll)
  }

  /** main over a finite run of distance readings. */
  method Monitor(distances: seq<real>) returns (trace: seq<SoundCall>)
    ensures trace == Trace(distances)
    ensures HornCount(trace) == CountBelow(distances)
    ensures WellSpaced(trace)
  {
    trace := [];
    var i := 0;
    assert distances[..0] == [];
    while i < |distances|
      invariant 0 <= i <= |distances|
      invariant trace == Trace(distances[..i])
    {
      var distance := distances[i];
      var step: seq<SoundCall>;
      if distance < DangerDistance {
        step := [Horn, Sleep(HornBackoff)];
      } else {
        step := [Sleep(IdlePoll)];
      }
      TraceExtend(distances, i);
      trace := trace + step;
      i := i + 1;
    }
    assert distances[..i] == distances;
    TraceWellSpaced(distances);
  }

  lemma TraceExtend(distances: seq<real>, i: nat)
    requires i < |distances|
    ensures Trace(distances[..i + 1]) == Trace(distances[..i]) + ObstacleStep(distances[i])
  {
    var p := distances[..i + 1];
    assert p[..|p| - 1] == distances[..i] && p[|p| - 1] == distances[i];
  }

  lemma {:induction false} WaitedNonNegative(t: seq<SoundCall>)
    requires forall i :: 0 <= i < |t| && t[i].Sleep? ==> t[i].seconds >= 0.0
    ensures Waited(t) >= 0.0
    decreases |t|
  {
    if t != [] {
      WaitedNonNegative(t[1..]);
    }
  }

  /**
   * Between any two horns of a run the loop has waited at least one second,
   * however often it samples: the horn never sounds twice within the back-off.
   */
  lemma HornSpacing(t: seq<SoundCall>, i: nat, j: nat)
    requires WellSpaced(t)
    requires i < j < |t| && t[i] == Horn && t[j] == Horn
    ensures Waited(t[i + 1..j]) >= HornBackoff
  {
    var u := t[i + 1..j];
    assert u[0] == Sleep(HornBackoff);
    WaitedNonNegative(u[1..]);
  }

  /** The same, for the trace the loop produces from any readings. */
  lemma MonitorHornSpacing(distances: seq<real>, i: nat, j: nat)
    requires i < j < |Trace(distances)| && Trace(distances)[i] == Horn && Trace(distances)[j] == Horn
    ensures Waited(Trace(distances)[i + 1..j]) >= HornBackoff
  {
    TraceWellSpaced(distances);
    HornSpacing(Trace(distances), i, j);
  }

  lemma {:induction false} TraceWellSpaced(distances: seq<real>)
    ensures WellSpaced(Trace(distances))
    decreases |distances|
  {
    if distances != [] {
      var n := |distances|;
      TraceWellSpaced(distances[..n - 1]);
      var a := Trace(distances[..n - 1]);
      var b := ObstacleStep(distances[n - 1]);
      assert Trace(distances) == a + b;
      assert forall k :: |a| <= k < |a + b| ==> (a + b)[k] == b[k - |a|];
    }
  }

  /** sound.py's stop_all only logs: the sound process never moves the robot. */
  function StopAll(): (calls: seq<Picar.PxCall>)
    ensures forall p :: Picar.ApplyAll(p, calls) == p
  {
    []
  }
}
