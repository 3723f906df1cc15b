# ForceEffect: internal forces and load combinations

This project models the internal-force value type and the load-combination
bookkeeping of a structural design program (`design/ForceEffect.h`), and
proves properties of the model in Dafny.

- `Forces` models the `Force` record. It has six components: axial force N,
  shears V2 and V3, torsion T, and moments M2 and M3. `ForceValue` is the
  record as a value; that is how the case map and the combination results hold
  it. The class `Force` has the six mutable fields and one method per
  arithmetic operator. As in the source, each operator writes its result into
  the left operand and returns that same object (`r == this`), so `a - a`
  leaves `a` at zero and `a + a` doubles it. The pure functions `Add`, `Sub`,
  `Scale`, `ScaleEach` and `Div` state what each operator does to the value.
  Their contracts give the partner properties: `Sub` undoes `Add`, `Div` undoes
  `Scale`, scaling by 1 or 0 gives the identity or zero, and a uniform factor
  array is the same as a scalar.
- `Combinations` models the combination data of `ForceEffect`:
  - `E_CombinationType`;
  - a parsed row `CombineExp`: a category plus an ordered list of
    (coefficient, case name) pairs;
  - `CombineForceData`: a force plus a category;
  - the class `ForceEffect`, which holds the case map (`map<string,
    ForceValue>`) and the three factor tables. Each table is an
    `Option<seq<CombineExp>>`, standing in for its nullable pointer.
  - The combined force of a row is `WeightedSum`: coefficient times the named
    case force, summed from zero in list order. `CalcCombineForce` computes it
    with a loop over the `Force` operators. `CalcCombination` turns a table
    into one result per row, in row order.
  - Lemmas prove that the weighted sum splits over concatenation and does not
    depend on the order of the pairs. They also prove that it reads only the
    cases the row names, that a coefficient-1 single-case row gives that case,
    that the default row gives zero, and a worked dead-plus-live example.

The model follows the code where the two could be read differently. The
operators mutate and return their left operand rather than producing new
values. `operator/` only reports a divisor within EPSILON of zero; it does not
reject it. The model returns that report as the `warned` result, and EPSILON,
which is defined in `xxt.h` (not part of this model), is the parameter `eps`.

The bodies of `setCaseMap`, `setFC`, `setNC`, `setQPC`, `calcCombineForce` and `calcCombination` are not in the header. The setters are modelled as plain stores.
Their model follows the declarations and comments:
- the result for a row is the weighted sum of the named cases from the case
  map;
- the result carries the row's own category, as `CombineForceData` pairs a
  force with a category.

## Model

| member | source | states |
|---|---|---|
| `Forces.Force.constructor` | design/ForceEffect.h:20-22 | the new record holds exactly the six given components |
| `Forces.Force.Assign` | design/ForceEffect.h:24-36 | `operator=`: this gets all six of f's components, self-assignment leaves it unchanged, and the result is this object |
| `Forces.Force.Plus` | design/ForceEffect.h:37-46 | `operator+`: each component becomes its old value plus f's, the aliased `a + a` doubles a, the result is this object, and a distinct f is unchanged |
| `Forces.Force.Minus` | design/ForceEffect.h:47-56 | `operator-`: each component becomes its old value minus f's, `a - a` gives the zero force, the result is this object, and a distinct f is unchanged |
| `Forces.Force.Times` | design/ForceEffect.h:57-66 | `operator*(double)`: every component multiplied by n; n = 1 leaves the record unchanged, n = 0 zeroes it; the result is this object |
| `Forces.Force.TimesEach` | design/ForceEffect.h:67-76 | `operator*(const double[])`: needs at least six factors and multiplies N, V2, V3, T, M2, M3 by n[0..5] in that order; the result is this object |
| `Forces.Force.DividedBy` | design/ForceEffect.h:77-87 | `operator/`: every component divided by n; with a positive EPSILON, the diagnostic fires exactly when abs(n - 0) <= EPSILON, and the division still happens; the result is this object |
| `Forces.Add` | design/ForceEffect.h:37-46 | the value `+` produces: adding the zero force on either side changes nothing, and a force added to itself is doubled |
| `Forces.Sub` | design/ForceEffect.h:47-56 | a difference added back to the subtrahend gives the original force, and a force minus itself is zero |
| `Forces.Scale` | design/ForceEffect.h:57-66 | scaling by 1 is the identity and scaling by 0 gives the zero force |
| `Forces.ScaleEach` | design/ForceEffect.h:67-76 | the value the array `*` produces: per-component factors that are all equal act as a scalar multiplication |
| `Forces.Div` | design/ForceEffect.h:77-87 | division by a non-zero n is undone by multiplying by n, and division by 1 is the identity |
| `Forces.AddCommutes` | design/ForceEffect.h:37-46 | the value `+` produces does not depend on the operand order |
| `Forces.AddAssociates` | design/ForceEffect.h:37-46 | chained `+` gives the same value however it is grouped |
| `Forces.ScaleOverAdd` | design/ForceEffect.h:57-66 | scalar `*` distributes over a sum of forces |
| `Forces.ScaleOverFactors` | design/ForceEffect.h:57-66 | scaling by a sum of factors is the sum of the separately scaled forces |
| `Combinations.DefaultCombineExp` | design/ForceEffect.h:136 | the default constructor: the row is tagged `E_CT_CASE` and its pair list is empty |
| `Combinations.DefaultCombinesToZero` | design/ForceEffect.h:136 | the default row is tagged `E_CT_CASE`, has no pairs, and combines to the zero force under every case map |
| `Combinations.SingleCase` | design/ForceEffect.h:131-135 | a row with the one pair (1, name) combines to the force of that case |
| `Combinations.WeightedSum` | design/ForceEffect.h:133-135 | the combined force of a pair list: the sum of coefficient times named case force, accumulated from zero in list order; its properties are the WeightedSum lemmas below |
| `Combinations.WeightedSumAppend` | design/ForceEffect.h:133-135 | the weighted sum of two concatenated pair lists is the sum of their weighted sums |
| `Combinations.WeightedSumStep` | design/ForceEffect.h:133-135 | extending a prefix of a row by its next pair adds exactly that pair's coefficient-weighted case force |
| `Combinations.WeightedSumRemove` | design/ForceEffect.h:133-135 | taking the pair at any index out of a row takes exactly its term out of the weighted sum |
| `Combinations.WeightedSumPermutation` | design/ForceEffect.h:133-135 | any rearrangement of a row's pairs gives the same combined force |
| `Combinations.WeightedSumLocal` | design/ForceEffect.h:167 | the combined force of a row depends only on the cases it names |
| `Combinations.DeadPlusLive` | design/ForceEffect.h:176-179 | 1.2 x dead (N 100, M3 50) + 1.4 x live (N 20, M3 10) gives N 148, M3 74, all other components 0 |
| `Combinations.ForceEffect.SetCaseMap` | design/ForceEffect.h:155 | the case map becomes exactly the given map; the tables are unchanged |
| `Combinations.ForceEffect.SetFC` | design/ForceEffect.h:156 | the fundamental table becomes the given one (None for a null pointer), and `HasFC` then holds exactly when it is present |
| `Combinations.ForceEffect.SetNC` | design/ForceEffect.h:157 | the same for the nominal table and `HasNC` |
| `Combinations.ForceEffect.SetQPC` | design/ForceEffect.h:158 | the same for the quasi-permanent table and `HasQPC` |
| `Combinations.ForceEffect.HasFC` | design/ForceEffect.h:159 | true exactly when the fundamental table is present (the pointer is not null) |
| `Combinations.ForceEffect.HasNC` | design/ForceEffect.h:160 | true exactly when the nominal table is present |
| `Combinations.ForceEffect.HasQPC` | design/ForceEffect.h:161 | true exactly when the quasi-permanent table is present |
| `Combinations.ForceEffect.CalcCombineForce` | design/ForceEffect.h:179 | when every case name in the row is in the case map, the returned force is a new object holding the weighted sum of the named case forces, taken in pair order |
| `Combinations.ForceEffect.CalcCombination` | design/ForceEffect.h:176-178 | one result per table row, in table order; each result is that row's combined force tagged with that row's category |

## Left out

- `operator<<` (design/ForceEffect.h:88-98) and the text written to the error stream by `operator/`: output only. The diagnostic itself is modelled as the `warned` result.
- IEEE double arithmetic: the components are reals, so rounding, overflow, infinities and NaN are not modelled.
- `Forces.Force.DividedBy`: requires n != 0.0, because a real cannot be divided by zero. The source goes on to divide and gets infinities or NaN.
- `Forces.Force.DividedBy`: EPSILON is defined in `xxt.h`, which is not part of this model. It is the parameter `eps`, required to be positive.
- `Forces.Force.DividedBy`: `Abs` is the real absolute value. The header calls `abs(n - 0)` without including `<cmath>`; depending on what `xxt.h` includes, that call may resolve to C's `int abs(int)`, which truncates n and makes the diagnostic fire for every |n| < 1. That reading is not modelled.
- `Combinations.ForceEffect.CalcCombineForce`: requires every case name of the row to be in the case map. The body is not in the header, so what the source does with a missing name is not modelled.
- `Combinations.ForceEffect.CalcCombination`: takes the table itself, not a possibly null pointer. It returns the generated list instead of filling a reference parameter. Whether the source clears that parameter first, and what it does with a null table, is not in the header. Each result takes its row's category; that is a reading of the declarations, since the body is not shown.
- `calcFC`, `calcNC`, `calcQPC` and the three result vectors `m_FundamentalCombination`, `m_NominalCombination`, `m_QuasiPermanentCombination`: the bodies are not in the header. So it is unknown whether a recalculation replaces or extends the stored list, and what happens when a table is absent. `CalcCombination` gives the rows each of them would generate.
- `Combinations.ForceEffect.SetCaseMap`: the body of `setCaseMap` is not in the header; the model assumes it stores the given map as a whole.
- `Combinations.ForceEffect.SetFC`: the body of `setFC` is not in the header; the model assumes it stores the given table (the pointer) as is.
- `Combinations.ForceEffect.SetNC`: the body of `setNC` is not in the header; the model assumes a plain store, as for `SetFC`.
- `Combinations.ForceEffect.SetQPC`: the body of `setQPC` is not in the header; the model assumes a plain store, as for `SetFC`.
- The `ForceEffect()` constructor and destructor: the bodies are not in the header, so the initial state of the fields is not modelled.
- The factor tables are stored by value. The engine's raw, non-owning pointers, the caller's ownership, and changes the caller makes to a table after setting it are not modelled.
- The unused enum `E_SingleCaseType` and the `friend class` declarations: no behaviour.
- `design/beam.h`: declarations and plain data only. It depends on `section.h` and `material.h`, which are not part of this model.
