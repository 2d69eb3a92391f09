# Reciprocating compressor performance: calculation core

This project models the calculation core of a single-page compressor
performance application (`app.py`). The model covers four pieces:

- the single-point power evaluator behind the "Calcular Performance" button;
- the multirun sweep behind "Gerar Gráficos": two evenly spaced pressure grids
  built as numpy's `linspace` builds them, then a nested loop that produces
  one flow curve and one power curve per discharge value;
- the cylinder configuration loop, which rebuilds the equipment's cylinder list;
- the session-state defaults that the equipment and process records start from.

All pressures, powers and flows are exact `real`s. RPM is an integer widget
value (`nat`), converted to `real` where the formulas use it.

Modules:

- `Formulas` (Formulas.dfy): the power relation `0.001 * (discharge - suction) * rpm`,
  the sweep's flow relation `1000 * (discharge - suction) / rpm`, and their
  sign, monotonicity and proportionality properties.
- `Grid` (Grid.dfy): `Linspace(a, b, n)`. Both endpoints are included; `n = 1`
  gives `[a]` and `n = 0` gives the empty grid. It is ascending for `a <= b`
  and descending for `a > b`, and evenly spaced either way.
- `Sweep` (Sweep.dfy): the nested loop as a method proved against the
  specification predicate `IsSweepOf`. Lemmas state how the curves are
  ordered.
- `Session` (Session.dfy): the `Equipment` and `Process` records as classes
  whose methods update fields in place, plus the cylinder list builder.

What the program does and does not check:

- Nothing rejects a sweep range with min > max. The grid then simply
  runs downwards (`Grid.LinspaceDescending`, `Sweep.CurvesReversedRange`).
- Nothing compares the cylinder list with the cylinder count. The list is
  rebuilt only while the cylinder configuration is open, that is, from the
  click on "Configurar Cilindros" until "Salvar Configuração dos Cilindros"
  clears the flag again. A count stored after that leaves the old list in
  place, and the two then disagree (`Session.StaleCylinderList`).
- The RPM widget accepts 0 (min_value=0), so RPM is a `nat`.
- No unit conversion exists anywhere. The formulas use raw magnitudes.
- The performance step stores the bare power number and nothing else.

## Model

| member | source | states |
|---|---|---|
| Formulas.Power | app.py:306-310 | power is 0 when discharge equals suction; with rpm > 0 it is positive exactly when discharge > suction and negative exactly when discharge < suction, with no error raised |
| Formulas.Flow | app.py:428 | flow (defined for rpm != 0) is 0 at equal pressures; with rpm > 0 it is positive exactly when discharge > suction and negative exactly when discharge < suction |
| Formulas.PowerIncreasesWithDischarge | app.py:308-309 | with rpm > 0, a higher discharge pressure gives a strictly higher power |
| Formulas.PowerDecreasesWithSuction | app.py:308-309 | with rpm > 0, a higher suction pressure gives a strictly lower power |
| Formulas.FlowIncreasesWithDischarge | app.py:428 | with rpm > 0, a higher discharge pressure gives a strictly higher flow |
| Formulas.FlowDecreasesWithSuction | app.py:428 | with rpm > 0, a higher suction pressure gives a strictly lower flow |
| Formulas.PowerAntisymmetric | app.py:309 | swapping suction and discharge negates the power |
| Formulas.PowerFromFlow | app.py:428-429 | at every grid point power = flow * rpm^2 / 10^6, so the two curves of a sweep are proportional |
| Grid.Linspace | app.py:410-419 | the grid has exactly n values and starts at the first bound given |
| Grid.StepSign | app.py:410-419 | the n - 1 steps of a grid cover exactly b - a, so the step is positive, zero or negative as b lies above, at or below a |
| Grid.LinspaceLast | app.py:410-419 | with n >= 2 the last value is exactly the second bound given |
| Grid.LinspaceEvenlySpaced | app.py:410-419 | neighbouring values differ by the same step |
| Grid.LinspaceAscending | app.py:410-419 | for min <= max the grid is ascending, strictly so for min < max |
| Grid.LinspaceDescending | app.py:410-419 | for min > max nothing is rejected and the grid is strictly descending |
| Grid.LinspaceWithin | app.py:410-419 | for min <= max every value lies within [min, max] |
| Grid.LinspaceReversed | app.py:410-419 | with n >= 2 the grid from max to min is the grid from min to max read backwards |
| Sweep.SweepCurves | app.py:423-431 | one flow curve and one power curve per discharge value, in discharge order; each has one entry per suction value; flow entry [i][j] is 1000*(d_i - s_j)/rpm and power entry [i][j] is the single-point evaluator at (s_j, d_i) |
| Sweep.GenerateGraphs | app.py:408-431 | the suction grid has 10 values from suction_min to suction_max, the discharge grid 5 from discharge_min to discharge_max, there are 5 flow and 5 power curves of 10 entries each, and every power entry equals the single-point evaluator at its grid point |
| Sweep.CurvesFallWithSuction | app.py:423-431 | with rpm > 0 and suction_min < suction_max, each flow and power curve falls strictly along the suction grid |
| Sweep.CurvesRiseWithDischarge | app.py:423-431 | with rpm > 0 and discharge_min < discharge_max, a later curve lies strictly above an earlier one at every suction value |
| Sweep.CurvesReversedRange | app.py:415-431 | with discharge_min > discharge_max the power curves come out in strictly decreasing order |
| Sweep.DefaultSweepExample | app.py:45-51 | for the default ranges at 1800 RPM, the first curve starts at 450 BHP and at a flow of 250000/1800 |
| Session.BuildCylinders | app.py:180-223 | exactly num_cylinders records, record i is what the widgets for cylinder i return, and every record has stage >= 1 and clearance and VVCP within [0, 100] |
| Session.Equipment.constructor | app.py:25-33 | the default equipment: electric motor, 1800 RPM, derate 0, stroke 150, two cylinders declared and none configured |
| Session.Equipment.SetNumCylinders | app.py:166-172 | storing a new count changes only the count; a list that matched the old count no longer matches |
| Session.Equipment.ConfigureCylinders | app.py:178-225 | the list is rebuilt with one record per declared cylinder, taken from the widgets, and then matches the count |
| Session.Process.constructor | app.py:35-40 | the default operating point: suction 100, discharge 500, power 0 |
| Session.Process.CalculatePerformance | app.py:306-310 | power becomes the evaluator's result at the stored pressures and the equipment's RPM; the pressures and every equipment field are unchanged, so the record stays valid |
| Session.DefaultSessionPower | app.py:306-310 | a new session (1800 RPM, suction 100, discharge 500) computes 720 BHP |
| Session.StaleCylinderList | app.py:172-228 | after configuring the two default cylinders, saving, and then raising the count to three, the list holds 2 records while the count says 3 |

## Left out

- Page setup, sidebar navigation and every widget call. A widget's value is a
  parameter or a field; its bounds appear only as preconditions and `Valid()`
  invariants.
- The `configure_cylinders` flag and the two buttons that set and clear it.
  `ConfigureCylinders` models one run with the flag set. The model does not
  capture that, while the flag is set, every rerun rebuilds the list with
  the count just stored; `StaleCylinderList` is the sequence after saving.
- The stores of motor type, RPM, derate and stroke, of the suction and
  discharge pressures (app.py:295, app.py:304), and of the four multirun
  range values. These are plain widget writes; the records' fields and
  `SweepRange` carry their values.
- The unit selection page and the unit defaults. They store label strings
  only, and no conversion is performed anywhere.
- All matplotlib drawing: the equipment diagram, the process diagram, the
  curve plots and their legend labels. `SweepResult` is what the plots
  receive.
- Report text assembly. It is string formatting, and `update_report` is
  called before the line that defines it, so the call fails at run time.
- PDF export, temporary files and the download button. These are library I/O.
- IEEE floating-point rounding. All arithmetic is over exact reals, so
  `linspace`'s rounding and its exact last value are not distinguished.
- Sweep.GenerateGraphs: requires rpm > 0. The code accepts rpm = 0, which
  makes every flow an IEEE infinity or NaN; exact reals cannot express that.
- Sweep.SweepCurves: requires rpm != 0 for the same reason.
