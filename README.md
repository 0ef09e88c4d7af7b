# Engineering tools: DC motor and binomial reliability models in Dafny

This project models two small calculators from the `engpy` package and proves properties of them.

**Brushed DC motor** (`motors.dfy`, module `Motors`). A `DCBrushedMotor` holds:
- the winding resistance R, the damping constant b and the torque / back-emf constant K;
- optionally the inertia J and the winding inductance L.

The motor has a state-space system (matrices A, B, C, D) only when J and L are given.

The model proves the following:
- The closed-form steady state is exactly the equilibrium of that system, whatever J and L are.
- The steady state is the unique solution of the two equilibrium equations.
- The stall torque is exactly the load at which the speed drops to zero.
- Electrical power splits into mechanical power plus copper and damping losses.
- When b is derived from a free-run measurement, the supply voltage cancels out.

Each operation is modelled as follows:
- **Simulation.** Its error checks run in the same order as in engpy. It produces one row per sample on the time axis `k·dt`; the numerical integrator is a parameter.
- **Mechanical time constant.** It simulates a 1000-sample step response. It takes the peak speed with a maximum loop, then finds the first sample above 63.5 % of that peak with a search loop. Each loop is proved against a predicate.
- **Characterisation.** It sweeps the load torque evenly from zero to stall and fills one table row per point.

**Binomial reliability** (`binomial_reliability.dfy`, module `BinomialReliability`). A pass/fail test of n units, with at most f of them allowed to fail, demonstrates a reliability R with confidence `1 − Σ_{i≤f} C(n,i)(1−R)^i R^(n−i)`.

The model proves the following:
- With no failures, the confidence is `1 − R^n`.
- Allowing more failures never raises the confidence.
- By the binomial theorem, which is proved here from Pascal's rule, the confidence lies in [0, 1]. It is exactly 0 once n or more failures are tolerated.
- The zero-failure sample size `ceil(log(1−C)/log R)` is characterised without logarithms, as the least n with `R^n ≤ 1 − C`. The reference cases (R 0.8, C 0.9) → 11 and (R 0.9, C 0.95) → 29 are proved exactly, and every row of the reference table, with up to three failures, gives a confidence within 0.02 of its target.
- The input check of `sample_size_zero_fails` is modelled twice: once as written, and once corrected (see Findings).
- The general `sample_size` rounds the abstract root finder's result up, never down.

All physical and probability quantities are `real`, so floating-point rounding is not modelled. Divisions become preconditions, except for the efficiency column, which is `None` where the Python implementation would divide by zero.

## Model

| member | source | states |
|---|---|---|
| Motors.StateSpaceIsEquationsOfMotion | engpy/motors.py:26-27 | the A and B matrices give `J·dω/dt = K·i − b·ω − τ` and `L·di/dt = V − R·i − K·ω` for every state and input |
| Motors.DCBrushedMotor.constructor | engpy/motors.py:17-30 | R, b, K, J and L are stored unchanged, with J and L missing by default; the system is absent exactly when J and L are both missing, and otherwise is built from the constants |
| Motors.DCBrushedMotor.FromFreeRunData | engpy/motors.py:33-38 | the derived damping satisfies `b·free_speed == K·free_current`; R, K, J and L pass through unchanged; the motor is well formed |
| Motors.DCBrushedMotor.SteadyState | engpy/motors.py:41-45 | the returned (w, i) satisfies the electrical balance `V == R·i + K·w` and the mechanical balance `K·i == b·w + τ` |
| Motors.DCBrushedMotor.SteadyStateUnique | engpy/motors.py:41-45 | any state satisfying both balance equations is the one steady_state returns |
| Motors.DCBrushedMotor.EquilibriumIffSteadyState | engpy/motors.py:26-27 | the derivative `A·x + B·[V, τ]` of the constructed system is zero if and only if x is the steady state, independent of J and L |
| Motors.DCBrushedMotor.StallTorqueIffZeroSpeed | engpy/motors.py:69-70 | the steady-state speed is zero if and only if the load equals `K·V/R` |
| Motors.DCBrushedMotor.StallState | engpy/motors.py:43-44 | at the stall torque the steady state is speed 0 and current `V/R` |
| Motors.DCBrushedMotor.PowerBalance | engpy/motors.py:86-87 | at steady state `V·i == w·τ + R·i² + b·w²`: the electrical power is the mechanical power plus the copper and damping losses |
| Motors.DCBrushedMotor.PowerWithinElectrical | engpy/motors.py:86-88 | for a physical motor loaded between zero and stall, `0 ≤ power_m ≤ power_e` |
| Motors.DCBrushedMotor.FreeRunVoltageCancels | engpy/motors.py:35-37 | for b derived from a free-run point, the zero-load steady state has `current/speed == free_current/free_speed` at every voltage |
| Motors.DCBrushedMotor.FreeRunPointReproduced | engpy/motors.py:37 | for b derived from a free-run point, the zero-load steady state at voltage `R·free_current + K·free_speed` is exactly that point |
| Motors.TimeAxis | engpy/motors.py:54-55 | the time axis has one entry per sample and starts at 0 |
| Motors.TimeAxisEvenlySpaced | engpy/motors.py:55 | consecutive sample times are exactly dt apart |
| Motors.DCBrushedMotor.Simulate | engpy/motors.py:48-66 | it fails with the dynamics error when there is no system, and otherwise with the length error when the series differ in length; on success it gives one row per sample, with time `k·dt`, the input voltage and torque echoed, and the integrator's state; the initial state defaults to rest, as `x0=[0,0]` does |
| Motors.Maximum | engpy/motors.py:76 | the result occurs in the speed trace and is at least every element of it |
| Motors.FirstIndexAbove | engpy/motors.py:77 | the result is the first index whose value exceeds the threshold, or 0 when none does, like `np.argmax` of the mask |
| Motors.DCBrushedMotor.TimeConstantMech | engpy/motors.py:73-78 | it fails with the dynamics error if and only if the system is absent; otherwise it returns `k·max_time/1000`, where k is the first sample of the 1000-sample step response above 0.635 times its peak; max_time defaults to 0.05 s |
| Motors.Linspace | engpy/motors.py:82 | the sweep starts at 0 and, with two or more samples, ends at the stop value |
| Motors.LinspaceEvenlySpaced | engpy/motors.py:82 | consecutive sweep points differ by `stop/(samples−1)` |
| Motors.DCBrushedMotor.CharacterisationRow | engpy/motors.py:83-88 | a row holds the torque, the steady state at that torque, `power_e = i·V` and `power_m = w·τ`; power_e equals power_m plus the losses; the efficiency is present if and only if power_e is non-zero, and then it is `power_m/power_e` |
| Motors.DCBrushedMotor.Characterisation | engpy/motors.py:81-89 | a negative sample count is an error, as np.linspace refuses it, and so is zero, because the speed and current columns cannot be assigned from an empty `apply`; otherwise it returns `samples` rows (100 by default) at evenly spaced torques from 0 to stall; the first row has zero torque and zero mechanical power, and with two or more rows the last has the stall torque, zero speed and zero mechanical power |
| BinomialReliability.Comb | engpy/binomial_reliability.py:11 | the binomial coefficient is non-negative, is 0 when k > n and is 1 when k = n |
| BinomialReliability.CombOne | engpy/binomial_reliability.py:11 | `C(n, 1) = n` |
| BinomialReliability.CombTwo | engpy/binomial_reliability.py:11 | `C(n, 2) = n(n−1)/2` |
| BinomialReliability.CombThree | engpy/binomial_reliability.py:11 | `C(n, 3) = n(n−1)(n−2)/6` |
| BinomialReliability.PowAntitone | engpy/binomial_reliability.py:11 | for x in [0, 1], `x^k ≤ x^m` whenever m ≤ k |
| BinomialReliability.TermNonNegative | engpy/binomial_reliability.py:11 | for R in [0, 1], every summand `C(n,i)(1−R)^i R^(n−i)` is non-negative |
| BinomialReliability.ConfidenceLevelZeroFailures | engpy/binomial_reliability.py:10-12 | with no failures allowed, the confidence is `1 − R^n` |
| BinomialReliability.ConfidenceLevelStep | engpy/binomial_reliability.py:10-12 | allowing f failures instead of f − 1 lowers the confidence by exactly the probability of f failures |
| BinomialReliability.FailureSumMonotone | engpy/binomial_reliability.py:11-12 | for R in [0, 1], the partial failure sum does not decrease as summands are added |
| BinomialReliability.ConfidenceLevelNonIncreasing | engpy/binomial_reliability.py:10-12 | for R in [0, 1], allowing more failures never raises the confidence |
| BinomialReliability.BinomialSumPascal | engpy/binomial_reliability.py:11 | Pascal's rule on partial sums: `S(n+1, m) = q·S(n, m) + p·S(n, m−1)` |
| BinomialReliability.BinomialTheorem | engpy/binomial_reliability.py:11 | `Σ_{i≤n} C(n,i) p^i q^(n−i) = (p + q)^n` for all reals p and q |
| BinomialReliability.FailureSumIsBinomialSum | engpy/binomial_reliability.py:11-12 | up to n + 1 summands, the failure sum is the partial expansion of `((1−R) + R)^n` |
| BinomialReliability.FailureSumTotal | engpy/binomial_reliability.py:11-12 | summed over all failure counts from 0 to n or beyond, the failure probabilities add up to 1 |
| BinomialReliability.ConfidenceLevelAllFailures | engpy/binomial_reliability.py:10-12 | tolerating n or more failures out of n gives confidence 0 |
| BinomialReliability.ConfidenceLevelInUnitInterval | engpy/binomial_reliability.py:10-12 | for R in [0, 1], the confidence lies in [0, 1] |
| BinomialReliability.Bernoulli | engpy/binomial_reliability.py:19 | Bernoulli's inequality `R^k (1 + k(1/R − 1)) ≤ 1`, which bounds the sample size search |
| BinomialReliability.SearchFrom | engpy/binomial_reliability.py:19-20 | the result is the least n ≥ k with `R^n ≤ t`, given that t > 0 and 0 < R < 1 |
| BinomialReliability.ZeroFailSampleSize | engpy/binomial_reliability.py:19-20 | `ceil(log(1−C)/log R)` as the least n whose zero-failure confidence reaches C: n reaches C, and every smaller n falls short |
| BinomialReliability.ZeroFailSampleSizeIs | engpy/binomial_reliability.py:19-20 | n is the zero-failure sample size whenever `R^n ≤ 1 − C` and `R^(n−1) > 1 − C` |
| BinomialReliability.SampleSizeZeroFailsReferenceCases | engpy/test/test_binomial.py:28-32 | for each zero-failure row of the reference table the sample size is exactly the tabulated one: (0.8, 0.9) gives 11 samples and (0.9, 0.95) gives 29 |
| BinomialReliability.ConfidenceLevelReferenceCases | engpy/test/test_binomial.py:6-25 | every row of the eight-row reference table, with 0 to 3 failures allowed, read back as a confidence level lies within 0.02 of the confidence it was sized for |
| BinomialReliability.GuardAsWrittenMissesValuesFromOne | engpy/binomial_reliability.py:16-17 | the written check rejects exactly the out-of-range inputs in which every value is below 1 |
| BinomialReliability.GuardAsWrittenAdmitsReliabilityAboveOne | engpy/binomial_reliability.py:16-17 | a reliability of 1.5 with a confidence of 0.5 passes the written check although it is out of range |
| BinomialReliability.SampleSizeZeroFailsAsWritten | engpy/binomial_reliability.py:15-20 | as written, it raises exactly when the written check rejects; it runs on unchecked exactly when an out-of-range input slips through; otherwise it returns the least sufficient n |
| BinomialReliability.SampleSizeZeroFails | engpy/binomial_reliability.py:15-20 | corrected, it gives the error if and only if R or C lies outside (0, 1); otherwise it returns the least n whose zero-failure confidence reaches C |
| BinomialReliability.SampleSizeZeroFailsGuardDiffers | engpy/binomial_reliability.py:16-17 | on R = 1.5, C = 0.5, the written version runs on unchecked while the corrected one reports the range error |
| BinomialReliability.SampleSizeZeroFailsAgree | engpy/binomial_reliability.py:16-20 | when both inputs are below 1, the written and corrected versions raise on the same inputs and return the same sample size |
| BinomialReliability.SampleSize | engpy/binomial_reliability.py:28-29 | the result is a whole number within one above the solver's root: `root ≤ n < root + 1` |
| BinomialReliability.SampleSizeIsLeastWholeNotBelowRoot | engpy/binomial_reliability.py:29 | a whole m is at or above the root if and only if m ≥ the result, so the root is rounded up, never down |

## Left out

- Motors.DCBrushedMotor.Simulate: the integrator's own failures are not modelled. These include series too short for `ct.forced_response` to take a time step from, such as two empty series, and its checks on the time axis. Because `Integrator` is a total function, the model returns `Ok([])` on two empty series.
- The forced-response integration (`ct.ss`, `ct.forced_response`, engpy/motors.py:30 and 56) is a library ODE solver. It is the `Integrator` parameter of `Simulate`, so trajectories and the 6.35 ms time-constant test value are not derived.
- The `fsolve` root finder (engpy/binomial_reliability.py:28) is the `RootFinder` parameter of `SampleSize`. Its convergence and accuracy are not modelled. Neither are the reference cases of test_sample_size (engpy/test/test_binomial.py:35-41), which go through it.
- `np.log` and `np.ceil` in the zero-failure closed form are replaced by its characterisation as the least n with `R^n ≤ 1 − C`. Dafny has no logarithm.
- Floating-point rounding, NaN and infinity are not modelled: all quantities are reals. The efficiency `power_m/power_e` at `power_e = 0` is `None` instead of NaN or infinity.
- scipy's `comb` at non-integer arguments is not modelled. `Comb` is defined on naturals by Pascal's rule, and there is no lemma relating it to the factorial formula.
- Vectorised inputs (numpy arrays of reliabilities or confidences) are modelled as scalars.
- pandas DataFrame construction and `apply` are modelled as sequences of records.
- The `state_names` and `state_units` labels (engpy/motors.py:13-14) are not modelled. Neither are the C and D output matrices beyond storing them, nor the `__main__` demonstration (engpy/binomial_reliability.py:31-34).
- Motors.DCBrushedMotor.constructor: it requires J and L to be both given or both missing, and non-zero. With only one given, the Python implementation divides by `None` and crashes, and a zero value divides by zero.
- Motors.DCBrushedMotor.FromFreeRunData: it requires a non-zero free speed, where the Python implementation would divide by zero.
- Motors.DCBrushedMotor.SteadyState: it requires R ≠ 0 and K² + bR ≠ 0, where the Python implementation would divide by zero.
- Motors.DCBrushedMotor.PowerWithinElectrical: it requires R > 0, b ≥ 0 and K² + bR > 0, the physical range; outside it, mechanical power can exceed electrical power.
- BinomialReliability.ConfidenceLevel: with more failures than samples and R = 0, the Python implementation raises ZeroDivisionError from `0 ** negative`; this is excluded by a precondition.
- The datasheet tolerance tests (engpy/test/test_motors.py:26-31 and 42-67) compare against measured values and are not restated. The check at engpy/test/test_motors.py:34-39, that a motor built without J and L keeps the b it was given, is the constructor's `this.b == b`.

## Findings

| source | as written | input that shows it | evidently intended | confidence | as-written member | corrected member |
|---|---|---|---|---|---|---|
| engpy/binomial_reliability.py:16-17 | `not all(0 < x) and all(1 > x)`: `not` binds only to the first `all`, so the check raises only when some value is ≤ 0 and every value is < 1 | reliability 1.5, confidence 0.5 passes the check (BinomialReliability.SampleSizeZeroFailsGuardDiffers); reliability 0 with confidence 1 also passes | raise whenever any value lies outside (0, 1), as the error message says | high; not executed | BinomialReliability.SampleSizeZeroFailsAsWritten | BinomialReliability.SampleSizeZeroFails |
