/**
 * Brushed DC motor model (engpy/motors.py).
 *
 * The motor is described by its winding resistance R, damping constant b and
 * combined torque / back-emf constant K, and optionally its inertia J and
 * winding inductance L.  Its equations of motion are
 *   J dω/dt = K i - b ω - τ        (mechanical)
 *   L di/dt = V - R i - K ω        (electrical)
 * with state [ω, i] (shaft speed, current) and input [V, τ] (voltage, load torque).
 * Quantities are real numbers; floating-point rounding is not modelled.
 */
module Motors {

  datatype Option<T> = None | Some(value: T)

  /** The state vector [shaft speed, current] (also the pair steady_state returns). */
  datatype State = State(speed: real, current: real)

  /** A 2x2 matrix, written row by row. */
  datatype Matrix2 = Matrix2(m11: real, m12: real, m21: real, m22: real)

  /** The linear system dx/dt = A x + B u, y = C x + D u with u = [voltage, load torque]. */
  datatype StateSpace = StateSpace(A: Matrix2, B: Matrix2, C: (real, real), D: real)

  datatype MotorError =
    | DynamicsUndefined   // raised when J and L are missing and dynamics are requested
    | LengthMismatch      // raised when the voltage and load torque series differ in length
    | NegativeSamples     // np.linspace refuses a negative number of samples
    | EmptySweep          // with no samples, the speed and current columns cannot be assigned

  datatype Result<T> = Ok(value: T) | Err(error: MotorError)

  /** One row of the simulation table. */
  datatype SimRow = SimRow(time: real, voltage: real, torque: real, speed: real, current: real)

  /** One row of the characterisation table; `efficiency` is None where the
      floating-point division would give NaN or infinity (zero electrical power). */
  datatype CharRow = CharRow(torque: real, speed: real, current: real,
                             powerElec: real, powerMech: real, efficiency: Option<real>)

  /** The numerical forced-response integrator: given the system, the time axis,
      the voltage and load torque series and the initial state, the state at
      sample k.  It is a library routine, kept abstract. */
  type Integrator = (StateSpace, seq<real>, seq<real>, seq<real>, State, nat) -> State

  /** Number of samples and fraction of peak speed used for the mechanical time constant. */
  const TimeConstantSamples: nat := 1000
  const TimeConstantFraction: real := 0.635
  /** Default simulated window for the mechanical time constant, in seconds. */
  const DefaultMaxTime: real := 0.05

  /** dx/dt = A x + B u. */
  function Derivative(ss: StateSpace, x: State, voltage: real, torque: real): State
  {
    State(ss.A.m11 * x.speed + ss.A.m12 * x.current + ss.B.m11 * voltage + ss.B.m12 * torque,
          ss.A.m21 * x.speed + ss.A.m22 * x.current + ss.B.m21 * voltage + ss.B.m22 * torque)
  }

  /** The state-space matrices built from the physical constants. */
  function StateSpaceOf(R: real, b: real, K: real, J: real, L: real): StateSpace
    requires J != 0.0 && L != 0.0
  {
    StateSpace(Matrix2(-b / J, K / J, -K / L, -R / L),
               Matrix2(0.0, -1.0 / J, 1.0 / L, 0.0),
               (1.0, 1.0), 0.0)
  }

  /** The matrices encode exactly the motor's equations of motion. */
  lemma StateSpaceIsEquationsOfMotion(R: real, b: real, K: real, J: real, L: real,
                                      x: State, voltage: real, torque: real)
    requires J != 0.0 && L != 0.0
    ensures var d := Derivative(StateSpaceOf(R, b, K, J, L), x, voltage, torque);
            J * d.speed == K * x.current - b * x.speed - torque &&
            L * d.current == voltage - R * x.current - K * x.speed
  {
    var d := Derivative(StateSpaceOf(R, b, K, J, L), x, voltage, torque);
    calc {
      J * d.speed;
      J * ((-b / J) * x.speed + (K / J) * x.current + 0.0 * voltage + (-1.0 / J) * torque);
      (J * (-b / J)) * x.speed + (J * (K / J)) * x.current + (J * (-1.0 / J)) * torque;
      K * x.current - b * x.speed - torque;
    }
    calc {
      L * d.current;
      L * ((-K / L) * x.speed + (-R / L) * x.current + (1.0 / L) * voltage + 0.0 * torque);
      (L * (-K / L)) * x.speed + (L * (-R / L)) * x.current + (L * (1.0 / L)) * voltage;
      voltage - R * x.current - K * x.speed;
    }
  }

  /** The series np.linspace(0, stop, num, endpoint=True), element k. */
  function Linspace(stop: real, num: nat, k: nat): (r: real)
    ensures k == 0 ==> r == 0.0
    ensures num >= 2 && k == num - 1 ==> r == stop
  {
    if num <= 1 then 0.0 else k as real * stop / (num - 1) as real
  }

  /** Consecutive elements of the sweep differ by the same step. */
  lemma LinspaceEvenlySpaced(stop: real, num: nat, k: nat)
    requires num >= 2 && k + 1 < num
    ensures Linspace(stop, num, k + 1) - Linspace(stop, num, k) == stop / (num - 1) as real
  {
    var d := (num - 1) as real;
    calc {
      Linspace(stop, num, k + 1) - Linspace(stop, num, k);
      (k + 1) as real * stop / d - k as real * stop / d;
      ((k + 1) as real * stop - k as real * stop) / d;
      stop / d;
    }
  }

  /** The series np.arange(0, n) * dt: n sample times starting at zero. */
  function TimeAxis(n: nat, dt: real): (ts: seq<real>)
    ensures |ts| == n
    ensures n > 0 ==> ts[0] == 0.0
  {
    seq(n, k => k as real * dt)
  }

  /** Consecutive sample times are dt apart. */
  lemma TimeAxisEvenlySpaced(n: nat, dt: real, k: nat)
    requires k + 1 < n
    ensures TimeAxis(n, dt)[k + 1] - TimeAxis(n, dt)[k] == dt
  {
    calc {
      TimeAxis(n, dt)[k + 1] - TimeAxis(n, dt)[k];
      (k + 1) as real * dt - k as real * dt;
      dt;
    }
  }

  lemma ProductNonNegative(x: real, y: real)
    requires x >= 0.0 && y >= 0.0
    ensures x * y >= 0.0
  {
  }

  lemma SquareNonNegative(x: real)
    ensures x * x >= 0.0
  {
    if x < 0.0 { assert x * x == (-x) * (-x); }
  }

  lemma NonNegativeFactor(d: real, w: real)
    requires d > 0.0 && d * w >= 0.0
    ensures w >= 0.0
  {
  }

  /** m is the largest element of xs (pandas Series.max). */
  ghost predicate IsMaximum(xs: seq<real>, m: real)
  {
    (exists k :: 0 <= k < |xs| && xs[k] == m) && forall k :: 0 <= k < |xs| ==> xs[k] <= m
  }

  /** k is what np.argmax(xs > threshold) returns: the first index whose value
      exceeds the threshold, or 0 when there is none. */
  ghost predicate IsThresholdIndex(xs: seq<real>, threshold: real, k: nat)
  {
    k < |xs| &&
    ((xs[k] > threshold && forall j :: 0 <= j < k ==> xs[j] <= threshold) ||
     (k == 0 && forall j :: 0 <= j < |xs| ==> xs[j] <= threshold))
  }

  /** k is the sample at which the speed trace first exceeds the fixed fraction of its peak. */
  ghost predicate IsTimeConstantIndex(speeds: seq<real>, k: nat)
  {
    exists top :: IsMaximum(speeds, top) && IsThresholdIndex(speeds, TimeConstantFraction * top, k)
  }

  method Maximum(xs: seq<real>) returns (m: real)
    requires |xs| > 0
    ensures IsMaximum(xs, m)
  {
    m := xs[0];
    ghost var at := 0;
    for k := 1 to |xs|
      invariant 0 <= at < |xs| && xs[at] == m
      invariant forall j :: 0 <= j < k ==> xs[j] <= m
    {
      if xs[k] > m {
        m, at := xs[k], k;
      }
    }
  }

  method FirstIndexAbove(xs: seq<real>, threshold: real) returns (k: nat)
    requires |xs| > 0
    ensures IsThresholdIndex(xs, threshold, k)
  {
    k := 0;
    while k < |xs| && xs[k] <= threshold
      invariant 0 <= k <= |xs|
      invariant forall j :: 0 <= j < k ==> xs[j] <= threshold
    {
      k := k + 1;
    }
    if k == |xs| {
      k := 0;
    }
  }

  class DCBrushedMotor {
    const R: real             // winding resistance
    const b: real             // damping constant
    const K: real             // torque constant, equal to the back-emf constant
    const J: Option<real>     // inertia, when known
    const L: Option<real>     // winding inductance, when known
    const sys: Option<StateSpace>   // the state-space system; None disables dynamics

    /** The state-space system is present exactly when J and L are, and is built from the constants. */
    ghost predicate Valid()
    {
      (sys.None? <==> J.None? && L.None?) &&
      (sys.Some? ==> J.Some? && L.Some? && J.value != 0.0 && L.value != 0.0 &&
                     sys.value == StateSpaceOf(R, b, K, J.value, L.value))
    }

    constructor (R: real, b: real, K: real, J: Option<real> := None, L: Option<real> := None)
      requires J.None? <==> L.None?
      requires J.Some? ==> J.value != 0.0 && L.value != 0.0
      ensures Valid()
      ensures this.R == R && this.b == b && this.K == K && this.J == J && this.L == L
      ensures sys.None? <==> J.None? && L.None?
    {
      this.R, this.b, this.K, this.J, this.L := R, b, K, J, L;
      if J.None? && L.None? {
        sys := None;
      } else {
        sys := Some(StateSpaceOf(R, b, K, J.value, L.value));
      }
    }

    /** Alternate constructor: the damping constant from a no-load measurement. */
    static method FromFreeRunData(freeCurrent: real, freeSpeed: real, R: real, K: real,
                                  J: Option<real> := None, L: Option<real> := None)
      returns (m: DCBrushedMotor)
      requires freeSpeed != 0.0
      requires J.None? <==> L.None?
      requires J.Some? ==> J.value != 0.0 && L.value != 0.0
      ensures m.Valid()
      ensures m.R == R && m.K == K && m.J == J && m.L == L
      ensures m.b * freeSpeed == K * freeCurrent
    {
      var b := K * freeCurrent / freeSpeed;
      m := new DCBrushedMotor(R, b, K, J, L);
    }

    predicate HasDynamics()
    {
      sys.Some?
    }

    /** The divisions in the steady-state solution are defined. */
    predicate SteadyStateDefined()
    {
      R != 0.0 && K * K + b * R != 0.0
    }

    /** The operating point at constant voltage and load torque. */
    function SteadyState(voltage: real, loadTorque: real): (x: State)
      requires SteadyStateDefined()
      ensures voltage == R * x.current + K * x.speed
      ensures K * x.current == b * x.speed + loadTorque
    {
      var w := (K * voltage - loadTorque * R) / (K * K + b * R);
      var i := (voltage - K * w) / R;
      assert R * i == voltage - K * w;
      assert (K * K + b * R) * w == K * voltage - loadTorque * R;
      assert R * (K * i) == R * (b * w + loadTorque) by {
        calc {
          R * (K * i);
          K * (R * i);
          K * voltage - K * K * w;
          (K * K + b * R) * w + loadTorque * R - K * K * w;
          R * (b * w + loadTorque);
        }
      }
      State(w, i)
    }

    /** The two equilibrium equations have exactly one solution. */
    lemma SteadyStateUnique(voltage: real, loadTorque: real, x: State)
      requires SteadyStateDefined()
      requires voltage == R * x.current + K * x.speed
      requires K * x.current == b * x.speed + loadTorque
      ensures x == SteadyState(voltage, loadTorque)
    {
      var y := SteadyState(voltage, loadTorque);
      var dw, di := x.speed - y.speed, x.current - y.current;
      assert R * di + K * dw == 0.0;
      assert K * di == b * dw;
      assert (K * K + b * R) * dw == 0.0 by {
        calc {
          (K * K + b * R) * dw;
          K * (K * dw) + R * (b * dw);
          K * (K * dw) + R * (K * di);
          K * (K * dw + R * di);
        }
      }
      assert dw == 0.0;
      assert R * di == 0.0;
    }

    /** The steady state is exactly the equilibrium of the state-space system,
        whatever J and L are. */
    lemma EquilibriumIffSteadyState(voltage: real, loadTorque: real, x: State)
      requires Valid() && HasDynamics() && SteadyStateDefined()
      ensures Derivative(sys.value, x, voltage, loadTorque) == State(0.0, 0.0)
              <==> x == SteadyState(voltage, loadTorque)
    {
      var d := Derivative(sys.value, x, voltage, loadTorque);
      StateSpaceIsEquationsOfMotion(R, b, K, J.value, L.value, x, voltage, loadTorque);
      if d == State(0.0, 0.0) {
        SteadyStateUnique(voltage, loadTorque, x);
      }
      if x == SteadyState(voltage, loadTorque) {
        assert J.value * d.speed == 0.0 && L.value * d.current == 0.0;
      }
    }

    function StallTorque(voltage: real): real
      requires R != 0.0
    {
      K * voltage / R
    }

    /** The speed is zero exactly at the stall torque. */
    lemma StallTorqueIffZeroSpeed(voltage: real, loadTorque: real)
      requires SteadyStateDefined()
      ensures SteadyState(voltage, loadTorque).speed == 0.0 <==> loadTorque == StallTorque(voltage)
    {
      var x := SteadyState(voltage, loadTorque);
      if x.speed == 0.0 {
        assert R * x.current == voltage;
        assert K * x.current == loadTorque;
        calc {
          loadTorque * R;
          K * (R * x.current);
          K * voltage;
        }
      }
      if loadTorque == StallTorque(voltage) {
        SteadyStateUnique(voltage, loadTorque, State(0.0, voltage / R));
      }
    }

    /** At stall the motor stands still and draws V/R. */
    lemma StallState(voltage: real)
      requires SteadyStateDefined()
      ensures SteadyState(voltage, StallTorque(voltage)) == State(0.0, voltage / R)
    {
      SteadyStateUnique(voltage, StallTorque(voltage), State(0.0, voltage / R));
    }

    /** Electrical power in equals mechanical power out plus copper and damping losses. */
    lemma PowerBalance(voltage: real, loadTorque: real)
      requires SteadyStateDefined()
      ensures var x := SteadyState(voltage, loadTorque);
              voltage * x.current ==
              x.speed * loadTorque + R * x.current * x.current + b * x.speed * x.speed
    {
      var x := SteadyState(voltage, loadTorque);
      calc {
        voltage * x.current;
        (R * x.current + K * x.speed) * x.current;
        R * x.current * x.current + x.speed * (K * x.current);
        R * x.current * x.current + x.speed * (b * x.speed + loadTorque);
      }
    }

    /** For a physical motor loaded between zero and stall torque, mechanical power
        is non-negative and never exceeds electrical power. */
    lemma PowerWithinElectrical(voltage: real, loadTorque: real)
      requires R > 0.0 && b >= 0.0 && K * K + b * R > 0.0
      requires 0.0 <= loadTorque <= StallTorque(voltage)
      ensures var x := SteadyState(voltage, loadTorque);
              0.0 <= x.speed * loadTorque <= voltage * x.current
    {
      var x := SteadyState(voltage, loadTorque);
      var d := K * K + b * R;
      var stall := StallTorque(voltage);
      assert stall * R == K * voltage;
      ProductNonNegative(stall - loadTorque, R);
      assert d * x.speed == K * voltage - loadTorque * R by {
        calc {
          d * x.speed;
          K * (K * x.speed) + R * (b * x.speed);
          K * (voltage - R * x.current) + R * (b * x.speed);
          K * (voltage - R * x.current) + R * (K * x.current - loadTorque);
        }
      }
      assert d * x.speed == (stall - loadTorque) * R;
      NonNegativeFactor(d, x.speed);
      ProductNonNegative(x.speed, loadTorque);
      PowerBalance(voltage, loadTorque);
      SquareNonNegative(x.current);
      ProductNonNegative(R, x.current * x.current);
      SquareNonNegative(x.speed);
      ProductNonNegative(b, x.speed * x.speed);
      assert R * x.current * x.current == R * (x.current * x.current);
      assert b * x.speed * x.speed == b * (x.speed * x.speed);
    }

    /** With b derived from a free-run point, the ratio current/speed at zero load
        is the measured ratio, whatever the voltage. */
    lemma FreeRunVoltageCancels(freeCurrent: real, freeSpeed: real, voltage: real)
      requires SteadyStateDefined()
      requires freeSpeed != 0.0
      requires b * freeSpeed == K * freeCurrent
      ensures var x := SteadyState(voltage, 0.0);
              x.current * freeSpeed == freeCurrent * x.speed
    {
      var x := SteadyState(voltage, 0.0);
      assert K * x.current == b * x.speed;
      assert K != 0.0;
      calc {
        K * (x.current * freeSpeed);
        (K * x.current) * freeSpeed;
        b * x.speed * freeSpeed;
        x.speed * (b * freeSpeed);
        x.speed * (K * freeCurrent);
        K * (freeCurrent * x.speed);
      }
    }

    /** With b derived from a free-run point, the model reproduces that point at the
        voltage that drove it. */
    lemma FreeRunPointReproduced(freeCurrent: real, freeSpeed: real)
      requires SteadyStateDefined()
      requires b * freeSpeed == K * freeCurrent
      ensures SteadyState(R * freeCurrent + K * freeSpeed, 0.0) == State(freeSpeed, freeCurrent)
    {
      SteadyStateUnique(R * freeCurrent + K * freeSpeed, 0.0, State(freeSpeed, freeCurrent));
    }

    /** Time-domain response to sampled voltage and load torque series. */
    method Simulate(voltage: seq<real>, loadTorque: seq<real>, dt: real, integrate: Integrator,
                    x0: State := State(0.0, 0.0)) returns (r: Result<seq<SimRow>>)
      ensures !HasDynamics() ==> r == Err(DynamicsUndefined)
      ensures HasDynamics() && |voltage| != |loadTorque| ==> r == Err(LengthMismatch)
      ensures HasDynamics() && |voltage| == |loadTorque| ==>
                r.Ok? && |r.value| == |voltage| &&
                forall k :: 0 <= k < |voltage| ==>
                  var x := integrate(sys.value, TimeAxis(|voltage|, dt), voltage, loadTorque, x0, k);
                  r.value[k] == SimRow(k as real * dt, voltage[k], loadTorque[k], x.speed, x.current)
    {
      if sys.None? {
        return Err(DynamicsUndefined);
      }
      if |voltage| != |loadTorque| {
        return Err(LengthMismatch);
      }
      var n := |voltage|;
      var times := TimeAxis(n, dt);
      var rows := new SimRow[n];
      for k := 0 to n
        invariant forall j :: 0 <= j < k ==>
                    var x := integrate(sys.value, times, voltage, loadTorque, x0, j);
                    rows[j] == SimRow(j as real * dt, voltage[j], loadTorque[j], x.speed, x.current)
      {
        var x := integrate(sys.value, times, voltage, loadTorque, x0, k);
        rows[k] := SimRow(times[k], voltage[k], loadTorque[k], x.speed, x.current);
      }
      r := Ok(rows[..]);
    }

    /** The speed trace of the step response used for the mechanical time constant:
        constant voltage, no load, starting at rest. */
    function StepSpeeds(voltage: real, maxTime: real, integrate: Integrator): (speeds: seq<real>)
      requires HasDynamics()
      ensures |speeds| == TimeConstantSamples
    {
      var n := TimeConstantSamples;
      var times := TimeAxis(n, maxTime / n as real);
      var vs := seq(n, _ => voltage);
      var ts := seq(n, _ => 0.0);
      seq(n, k requires 0 <= k < n => integrate(sys.value, times, vs, ts, State(0.0, 0.0), k).speed)
    }

    /** Time at which the step response first exceeds 63.5% of its peak speed. */
    method TimeConstantMech(voltage: real, integrate: Integrator, maxTime: real := DefaultMaxTime)
      returns (r: Result<real>)
      ensures !HasDynamics() <==> r == Err(DynamicsUndefined)
      ensures HasDynamics() ==>
                r.Ok? &&
                exists k: nat :: k < TimeConstantSamples &&
                  IsTimeConstantIndex(StepSpeeds(voltage, maxTime, integrate), k) &&
                  r.value == k as real * (maxTime / TimeConstantSamples as real)
    {
      var n := TimeConstantSamples;
      var dt := maxTime / n as real;
      var sim := Simulate(seq(n, _ => voltage), seq(n, _ => 0.0), dt, integrate);
      if sim.Err? {
        return Err(sim.error);
      }
      var rows := sim.value;
      var speeds := seq(n, k requires 0 <= k < n => rows[k].speed);
      assert speeds == StepSpeeds(voltage, maxTime, integrate);
      var top := Maximum(speeds);
      var idx := FirstIndexAbove(speeds, TimeConstantFraction * top);
      assert IsTimeConstantIndex(speeds, idx);
      r := Ok(rows[idx].time);
    }

    /** The characterisation row at one load torque: the steady state, the electrical
        and mechanical powers and their ratio. */
    function CharacterisationRow(voltage: real, torque: real): (row: CharRow)
      requires SteadyStateDefined()
      ensures row.torque == torque
      ensures State(row.speed, row.current) == SteadyState(voltage, torque)
      ensures row.powerElec == row.current * voltage && row.powerMech == row.speed * torque
      ensures row.powerElec == row.powerMech + R * row.current * row.current
                               + b * row.speed * row.speed
      ensures row.efficiency.Some? <==> row.powerElec != 0.0
      ensures row.efficiency.Some? ==> row.efficiency.value * row.powerElec == row.powerMech
    {
      var x := SteadyState(voltage, torque);
      var powerElec := x.current * voltage;
      var powerMech := x.speed * torque;
      PowerBalance(voltage, torque);
      CharRow(torque, x.speed, x.current, powerElec, powerMech,
              if powerElec == 0.0 then None else Some(powerMech / powerElec))
    }

    /** Steady-state sweep of load torque from zero to stall, evenly spaced.  A negative
        number of samples is refused by np.linspace; with none, the empty table that
        `apply` returns has one column, so assigning it to the speed and current
        columns fails. */
    method Characterisation(voltage: real, samples: int := 100) returns (r: Result<seq<CharRow>>)
      requires SteadyStateDefined()
      ensures samples < 0 <==> r == Err(NegativeSamples)
      ensures samples == 0 <==> r == Err(EmptySweep)
      ensures samples > 0 ==>
                r.Ok? && |r.value| == samples &&
                (forall k :: 0 <= k < samples ==>
                   r.value[k] == CharacterisationRow(voltage, Linspace(StallTorque(voltage), samples, k))) &&
                r.value[0].torque == 0.0 && r.value[0].powerMech == 0.0
      ensures samples >= 2 ==> r.Ok? &&
                               r.value[samples - 1].torque == StallTorque(voltage) &&
                               r.value[samples - 1].speed == 0.0 &&
                               r.value[samples - 1].powerMech == 0.0
    {
      if samples < 0 {
        return Err(NegativeSamples);
      }
      if samples == 0 {
        return Err(EmptySweep);
      }
      var stall := StallTorque(voltage);
      var table := new CharRow[samples];
      for k := 0 to samples
        invariant forall j :: 0 <= j < k ==>
                    table[j] == CharacterisationRow(voltage, Linspace(stall, samples, j))
      {
        table[k] := CharacterisationRow(voltage, Linspace(stall, samples, k));
      }
      var rows := table[..];
      assert rows[0] == CharacterisationRow(voltage, 0.0);
      if samples >= 2 {
        assert rows[samples - 1] == CharacterisationRow(voltage, stall);
        StallTorqueIffZeroSpeed(voltage, stall);
      }
      r := Ok(rows);
    }
  }
}
