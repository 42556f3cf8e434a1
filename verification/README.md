# Maker Line position classifier

A Dafny model of the core of the Maker Line extension for the micro:bit (`makerline`
namespace in `main.ts`). The extension reads a line-following sensor array in one of two
modes. In analog mode it takes one analog reading. In digital mode it takes five binary
readings. It answers queries of the form "is the line at position P?".

The model has these parts:

- `LinePositions` (`line_positions.dfy`): the seven-valued `LinePosition` enumeration. It also
  records which stored digital pin each single position reads.
- `Configuration` (`configuration.dfy`): the module-level state. This is two independent
  flags, an analog pin slot that starts unassigned and a digital pin list that starts empty.
  It also holds the two initialisers, which are pure functions from state to state.
- `Classifier` (`classifier.dfy`): `isLineDetectedOn` as a pure function of the state, the
  position and a `Hardware` value. `Hardware` stands for the host's two pin-reading
  functions, so every query takes a fresh sample.
- `AnalogBands` (`analog_bands.dfy`): a second, independent description of the analog bands.
  It is a table of six ascending lower edges, proved to agree with the query's rule table.
  From that agreement it proves that every reading is in exactly one band.
- `DigitalPatterns` (`digital_patterns.dfy`): what the digital rule table answers for each
  five-reading pattern.
- `Detection` (`detection.dfy`): which mode decides a query, and what each answer depends on.
  This includes analog mode deciding whenever both modes are initialised, in either order.
- `Session` (`session.dfy`): a program's sequence of calls to the three exported functions.
  It is used to show that queries never change the configuration, and that a program which
  initialises both modes, in either order, gets analog answers.

Two details of the digital mode are worth stating:

- The digital reads label the first stored pin `L` (far left) and the fifth `R` (far right).
  The inline comments name them the other way round (`main.ts:123-127`). The model follows
  the code: `L = pins[0]`.
- Each single digital position tests only its own reading (`main.ts:134-152`). So a pattern
  with two to four readings of 1 makes that many single-position queries true.
  `DigitalPatterns.TwoBitExample` proves this for `(1, 1, 0, 0, 0)`.

## Model

| member | source | states |
|---|---|---|
| `LinePositions.SensorAt` | main.ts:123-127 | the pin at index i (0..4) is read by a single position, and mapping that position back gives index i |
| `LinePositions.SensorIndex` | main.ts:123-127 | each single position reads a pin index below 5: FarLeft the first stored pin (d1), FarRight the fifth (d5) |
| `LinePositions.SensorAtIndex` | main.ts:123-127 | every single position is the one its own pin index maps back to, so the two maps are inverse |
| `Configuration.Initial` | main.ts:18-21 | before initialisation neither flag is set, the analog pin is unassigned and the digital pin list is empty |
| `Configuration.InitializeAnalog` | main.ts:57-60 | sets the analog flag and pin; the digital flag and pins stay as they were; a state the classifier can use stays one |
| `Configuration.InitializeDigital` | main.ts:70-73 | stores d1..d5 at indices 0..4 and sets the digital flag; the analog flag and pin stay as they were; a usable state stays one |
| `Classifier.AnalogRule` | main.ts:91-119 | the analog rule table, one band of readings per position; its meaning is stated by `AnalogBands.AnalogRuleIsBand` |
| `Classifier.DigitalRule` | main.ts:129-157 | the digital rule table over five readings in stored pin order; its meaning is stated by `DigitalPatterns.DigitalMatchesCharacterised` |
| `Classifier.IsLineDetectedOn` | main.ts:86-161 | with neither mode initialised every query answers false |
| `AnalogBands.AnalogRuleIsBand` | main.ts:91-119 | for every integer reading, a position's analog rule holds exactly when the reading lies in that position's band of the ascending edge table |
| `AnalogBands.AnalogPartition` | main.ts:91-119 | every integer reading satisfies exactly one of the seven analog rules |
| `AnalogBands.AnalogBoundaries` | main.ts:91-119 | 80 is None, 81 and 265 FarLeft, 266 and 429 Left, 430 and 593 Center, 594 and 757 Right, 758 and 941 FarRight, 942 All |
| `DigitalPatterns.NoneIffAllZero` | main.ts:130-132 | None holds iff all five readings are 0 |
| `DigitalPatterns.AllIffAllOne` | main.ts:154-156 | All holds iff all five readings are 1 |
| `DigitalPatterns.NoneAndAllExclusive` | main.ts:129-157 | None and All never hold together |
| `DigitalPatterns.SingleReadsOwnPin` | main.ts:134-152 | a single position holds iff its own reading (FarLeft index 0 .. FarRight index 4) is 1 |
| `DigitalPatterns.SingleIgnoresOtherPins` | main.ts:134-152 | two patterns that agree on a single position's own reading give that position the same answer |
| `DigitalPatterns.AllImpliesEverySingle` | main.ts:134-156 | when All holds, every single position holds |
| `DigitalPatterns.NoneExcludesEverySingle` | main.ts:130-152 | when None holds, no single position holds |
| `DigitalPatterns.DigitalMatchesCharacterised` | main.ts:129-157 | the positions answered true are the sensors reading 1, plus None for all zeros and All for all ones |
| `DigitalPatterns.OneHotSelectsOne` | main.ts:129-157 | a 0/1 pattern with exactly one reading of 1 makes exactly one query true, the single position of that sensor |
| `DigitalPatterns.TwoBitExample` | main.ts:134-140 | readings (1, 1, 0, 0, 0) make exactly FarLeft and Left true |
| `Detection.InitialAnswersFalse` | main.ts:86-161 | in the state before initialisation every position answers false for every hardware sample |
| `Detection.AnalogModeAnswersBand` | main.ts:88-119 | with the analog flag set, a query is true iff the analog reading of the analog pin lies in that position's band |
| `Detection.AnalogPrecedence` | main.ts:88-120 | with the analog flag set, the answer depends only on the analog pin's reading; the digital flag, pins and readings have no effect |
| `Detection.AnalogModeExactlyOne` | main.ts:88-119 | in analog mode exactly one of the seven queries is true |
| `Detection.DigitalModeReadsOwnPin` | main.ts:122-152 | in digital mode only, a single position is true iff the binary read of its own stored pin is 1 |
| `Detection.DigitalModeWholePattern` | main.ts:122-156 | in digital mode only, None is true iff all five pins read 0 and All iff all five read 1 |
| `Detection.AnalogWinsEitherOrder` | main.ts:57-120 | after both initialisers, in either order, every query answers by the analog rule on the analog pin's reading |
| `Detection.AnalogReading500` | main.ts:100-106 | an analog reading of 500 makes Center true and Left false |
| `Detection.DigitalCenterOnly` | main.ts:122-157 | digital readings (0, 0, 1, 0, 0) make Center true and All and None false |
| `Session.Step` | main.ts:57-161 | an initialiser gives no answer; a query gives one answer and leaves the configuration unchanged; every step keeps the state usable |
| `Session.Run` | main.ts:18-161 | a run gives one answer per query; a flag ends set iff it started set or some call initialised its mode |
| `Session.RunCons` | main.ts:57-161 | running a non-empty call sequence is its first call's step followed by a run of the rest, with the answers concatenated in order |
| `Session.QueriesLeaveStateUnchanged` | main.ts:86-161 | a run of queries ends in its starting configuration, and each answer is the query on that configuration with that query's sample |
| `Session.AnalogWinsInSession` | main.ts:57-120 | a program that calls both initialisers, in either order, and then queries p gets exactly one answer: the analog rule for p on the analog pin's reading |

## Left out

- Hardware reads (`pins.analogReadPin`, `pins.digitalReadPin`) are not calls in the model. They are the two functions of a `Hardware` parameter, passed to each query.
- The model reads the five digital pins all at once. The source reads the far-right pin first, at a slightly different instant from the others. Reads are pure functions here, so the order cannot be observed. It also means two stored pins that are the same pin read the same value within one query. `initializeDigital` does not check for duplicate pins (`main.ts:70-73`).
- Pin identities are opaque integer wrappers, because no logic inspects them.
- The block-editor annotations (weights, colours, icons, defaults, grid picker) are presentation metadata, so they are left out.
- Numeric `LinePosition` values outside the seven enumerators are left out. The Dafny datatype is closed, so they cannot occur.
- Any rescaling for a different ADC resolution is left out. The thresholds are fixed integers, and the band properties hold over all integers.
- `Classifier.IsLineDetectedOn` requires `Configuration.Valid`: a set flag comes with its pins. Every state the initialisers can reach satisfies it. States where the source would read from an undefined pin are not modelled.
