# SRAM stimulus generator and bit-cell array netlist, modelled in Dafny

This project models two generators from an SRAM test bench.

**The SPICE stimulus generator** (`sram/manual-spice/preprocess.py`). It covers:

- **Time cursor**: `Time.incr`.
- **Piecewise-linear voltage sources**: `VoltageSource` with `put` and `compile`.
- **Write and read cycles**: `write` and `check`. Each one is a fixed sequence of edges split 0.1 / 0.5 / 0.4 of the clock period.
- **Expectation ledger**: `expct`.
- **Address width**: `ceil(log2(num_words))`.
- **Port list**: `conn_ports` and `probe_ports`.
- **Top-level program**:
  1. settle for 5 periods;
  2. raise `vdd` and `web0`, then settle for 5 more;
  3. write every word in the order of the first shuffle;
  4. check every word in the order of the second shuffle, which permutes the already shuffled list;
  5. settle for 5 more periods.

**The bit-cell array netlist** (`gen_sram_array` in `old/gen_array.py`). It is modelled as:

- the list of lines: title, blank line, the `.subckt` declaration, one instance line per cell in row-major order, and `.ends`;
- the text obtained by joining those lines with `nl`.

## Modelling choices

- **Times and voltages** are exact `real`s. A source is a sequence of `Point(time, volt)`.
- **The generator state** is an immutable `State` record, threaded through pure `Write` and `Check` functions. It holds the cursor, every source and the ledger.
- **`compile` mutates the source.** It appends its final point to `self.pts` in place (`pts = self.pts; pts += ...`). So `Compile` returns both the updated source and the rendered description.
- **Randomness is an input.** The `randint` words become a `data` sequence, where each word is below `2^word_size`. The two `shuffle`s become two permutations of `[0, num_words)`.
- **`Shuffle(s, p)[i]` is `s[p[i]]`.**

## Behaviour worth noting

The model keeps these behaviours of the code:

- **Compiling is not idempotent.** Compiling a source twice appends the final point twice. See `Pwl.CompileTwiceGrows`.
- **`check` samples late.** It records its ledger entry after the last 0.4-period advance, which is one full period after the cycle starts. It does not sample at the clock edge.
- **`check` releases the address.** In its release phase it drives the address lines back to 0, rather than leaving them in place.
- **Bad word counts fail.** `num_words <= 0` makes `log2` fail, which the model reports as `Err("math domain error")`. A `num_words` of 1 gives an address width of 0.

## Model

| member | source | states |
|---|---|---|
| TimeCursor.Start | sram/manual-spice/preprocess.py:9-10 | a new cursor stands at time 0 |
| TimeCursor.Incr | sram/manual-spice/preprocess.py:12-13 | the cursor moves by exactly `dt`; it never moves back for `dt >= 0` and strictly forward for `dt > 0` |
| TimeCursor.IncrAllTotal | sram/manual-spice/preprocess.py:12-13 | a run of increments moves the cursor by the sum of the deltas, and never back when all deltas are non-negative |
| Pwl.NewSource | sram/manual-spice/preprocess.py:16-20 | a new source holds the single point (0, 0.0), keeps its name and slew, and drives its own name unless a drive node is given |
| Pwl.Put | sram/manual-spice/preprocess.py:22-24 | `put` adds exactly two points, (t - t_tr, previous level) then (t, v), and leaves every earlier point, the name, the drive and the slew unchanged |
| Pwl.PutAllShape | sram/manual-spice/preprocess.py:22-24 | after n puts the point list is 2n longer, its old prefix is intact, and its last point is the last value set |
| Pwl.Compile | sram/manual-spice/preprocess.py:26-35 | compiling appends (T, last level) to the source's own points and renders exactly that list, with the DC level taken from the first point |
| Pwl.CompileFresh | sram/manual-spice/preprocess.py:16-35 | a source given n puts renders 2n + 2 pairs; they start at (0, 0) and end at (T, last value set), and the DC level is 0.0; with no puts it renders exactly [(0, 0), (T, 0)] |
| Pwl.CompileTwiceGrows | sram/manual-spice/preprocess.py:28-29 | because compile appends to the source in place, a second compile renders one more point than the first: rendering is not idempotent |
| Pwl.PutOrdered | sram/manual-spice/preprocess.py:22-24 | when the slew is non-negative and t - t_tr is not before the last point, put keeps the point times non-decreasing |
| Pwl.CompileOrdered | sram/manual-spice/preprocess.py:26-29 | compiling at a time not before the last point keeps the rendered times non-decreasing |
| Bits.Shr | sram/manual-spice/preprocess.py:88 | `x >> k` on a non-negative value is x divided by 2^k, rounded down |
| Bits.Bit | sram/manual-spice/preprocess.py:88 | `(x >> k) & 1` is 0 or 1 |
| Bits.CeilLog2 | sram/manual-spice/preprocess.py:51 | the least k with 2^k >= n: 2^k covers n, 2^(k-1) does not, and k is 0 exactly when n is 1 |
| Bits.Levels | sram/manual-spice/preprocess.py:87-90 | when vdd is non-zero, line k of an n-line bus sits at vdd exactly when bit k is set, and at 0 exactly when it is clear; with vdd zero every line sits at 0 |
| Bits.DecodeLevels | sram/manual-spice/preprocess.py:87-90 | a word read off n rail levels is below 2^n |
| Bits.DecodeLevelsRoundTrip | sram/manual-spice/preprocess.py:87-90 | reading a bus's rail levels back as bits recovers any value below 2^n when vdd is non-zero |
| Bits.LevelsInjective | sram/manual-spice/preprocess.py:87-90 | when vdd is non-zero, two values below 2^n drive the same levels exactly when they are equal |
| Sequencer.PutEach | sram/manual-spice/preprocess.py:87-90 | putting one level on each bus line puts level k on line k and nothing else |
| Sequencer.Zeros | sram/manual-spice/preprocess.py:96-99 | the release levels: one 0.0 per bus line |
| Sequencer.Write | sram/manual-spice/preprocess.py:85-103 | a write advances the cursor by one period and leaves the ledger, csb0 and vdd alone. Each data and address line gets its bit level at t0 and 0 at t0 + 0.6c. web0 goes to 0 at t0 and back to vdd at t0 + 0.6c. clk0 rises at t0 + 0.1c and falls at t0 + 0.6c |
| Sequencer.Check | sram/manual-spice/preprocess.py:106-124 | a check advances the cursor by one period and leaves data, csb0 and vdd alone. It drives the address at t0 and back to 0 at t0 + 0.6c, holds web0 at vdd, and pulses clk0 as a write does. It appends exactly one ledger entry, stamped t0 + c, holding the word's rail levels |
| Sequencer.Phases | sram/manual-spice/preprocess.py:92-103 | the three waits of one operation add up to one clock period, and none is negative for a non-negative period |
| Sequencer.OperationCursor | sram/manual-spice/preprocess.py:85-124 | a write and a check both move the cursor through the waits 0.1c, 0.5c and 0.4c in turn: the clock rises after the first, the lines are released after the second |
| Sequencer.TwoChangesReady | sram/manual-spice/preprocess.py:22-24 | two puts at increasing times, each at least one slew after the previous point, keep a source time-ordered and starting at (0, 0) |
| Sequencer.WriteWellTimed | sram/manual-spice/preprocess.py:85-103 | with t_tr <= 0.4c, a write keeps every source time-ordered, with its last point at most t - 0.4c |
| Sequencer.CheckWellTimed | sram/manual-spice/preprocess.py:106-124 | the same timing invariant is kept by a check |
| Sequencer.WriteDrivesValue | sram/manual-spice/preprocess.py:87-88 | when vdd is non-zero and the value is below 2^word_size, the data levels a write sets decode back to the written value |
| Sequencer.AddressDriven | sram/manual-spice/preprocess.py:89-109 | when vdd is non-zero and the address is below 2^addr_size, the address levels set by a write, and by a check, decode back to the address |
| Preprocess.AddrSize | sram/manual-spice/preprocess.py:51 | `ceil(log2(n))`: an error exactly when n <= 0; otherwise the least width whose power of two covers n, which is 0 exactly when n is 1 |
| Preprocess.Configure | sram/manual-spice/preprocess.py:44-51 | fails exactly when the word count has no logarithm; otherwise it carries the inputs and the derived address width |
| Preprocess.BusPort | sram/manual-spice/preprocess.py:66 | a bus port name is the base, `[`, the decimal index, `]` |
| Preprocess.BusSource | sram/manual-spice/preprocess.py:67 | a bus source name is the base, `_`, the decimal index |
| Preprocess.BusPortInjective | sram/manual-spice/preprocess.py:65-70 | two bits of one bus have the same port name exactly when they are the same bit |
| Preprocess.BusSourceInjective | sram/manual-spice/preprocess.py:65-70 | two bits of one bus have the same source name exactly when they are the same bit |
| Preprocess.ConnPorts | sram/manual-spice/preprocess.py:62-75 | the port list has 2·word_size + addr_size + 5 entries |
| Preprocess.ProbePorts | sram/manual-spice/preprocess.py:72-74 | one probe per output bit |
| Preprocess.Initial | sram/manual-spice/preprocess.py:64-80 | one data source per word bit and one address source per address bit, every source holding a point |
| Preprocess.Settle | sram/manual-spice/preprocess.py:127-132 | the bring-up moves the cursor by 10 periods; vdd and web0 are each raised to vdd by one put at 5 periods after the start; every other source and the ledger are unchanged; one source per line is kept |
| Preprocess.WriteAll | sram/manual-spice/preprocess.py:140-141 | the write loop keeps one source per line |
| Preprocess.CheckAll | sram/manual-spice/preprocess.py:145-146 | the check loop keeps one source per line |
| Preprocess.Stimulus | sram/manual-spice/preprocess.py:135-136 | `stim` pairs address k with word k, for every k below num_words |
| Preprocess.PermutedMultiset | sram/manual-spice/preprocess.py:139 | arranging a list by an ordering of its indices keeps every element exactly as often as it occurred |
| Preprocess.Shuffle | sram/manual-spice/preprocess.py:139 | shuffling puts element p[i] at position i and is a permutation: the same multiset of elements |
| Preprocess.Writes | sram/manual-spice/preprocess.py:135-139 | write i goes to address p1[i] with that address's word |
| Preprocess.Reads | sram/manual-spice/preprocess.py:135-144 | check i goes to address p1[p2[i]] with that address's word: the second shuffle permutes the already shuffled list |
| Preprocess.Final | sram/manual-spice/preprocess.py:126-148 | the whole run keeps one source per line |
| Preprocess.RenderEach | sram/manual-spice/preprocess.py:163-164 | rendering a bus compiles each of its sources at the end time, in order |
| Preprocess.Render | sram/manual-spice/preprocess.py:159-164 | one rendered source per line: vdd, csb0, web0, clk0, the data bus and the address bus |
| Preprocess.Generate | sram/manual-spice/preprocess.py:126-164 | the program's port and probe lists are those of the configuration, and it renders 4 + word_size + addr_size sources |
| PreprocessProperties.WriteGrows | sram/manual-spice/preprocess.py:85-103 | a write adds 4 points to each data line and 4 to each control and address line, except csb0 and vdd, and keeps every earlier point |
| PreprocessProperties.CheckGrows | sram/manual-spice/preprocess.py:106-124 | a check adds no data points and 4 points to each address line, web0 and clk0 |
| PreprocessProperties.WriteAllTime | sram/manual-spice/preprocess.py:140-141 | n writes advance the cursor by n periods and append nothing to the ledger |
| PreprocessProperties.WriteAllGrows | sram/manual-spice/preprocess.py:140-141 | n writes add 4n points to each data, address, web0 and clk0 line |
| PreprocessProperties.WriteAllWellTimed | sram/manual-spice/preprocess.py:140-141 | the write loop keeps every source time-ordered |
| PreprocessProperties.CheckAllTime | sram/manual-spice/preprocess.py:145-146 | n checks advance the cursor by n periods and leave the data lines untouched |
| PreprocessProperties.CheckAllGrows | sram/manual-spice/preprocess.py:145-146 | n checks add 4n points to each address, web0 and clk0 line |
| PreprocessProperties.CheckAllWellTimed | sram/manual-spice/preprocess.py:145-146 | the check loop keeps every source time-ordered |
| PreprocessProperties.LedgerSnoc | sram/manual-spice/preprocess.py:122-124 | one more check extends the ledger by exactly the entry for its operation, sampled one period after the previous one |
| PreprocessProperties.CheckAllLedger | sram/manual-spice/preprocess.py:144-146 | check i of the loop appends entry i, stamped t0 + (i + 1)·c and holding the levels of check i's word |
| PreprocessProperties.SettleEffect | sram/manual-spice/preprocess.py:126-132 | the bring-up ends at 10c with an empty ledger. Only vdd and web0 change: each is put to vdd at 5c, so both read exactly [(0, 0), (5c - t_tr, 0), (5c, vdd)]. Every source is well timed when t_tr <= 0.4c |
| PreprocessProperties.StageTimes | sram/manual-spice/preprocess.py:126-148 | the writes end at 10c + n periods, with nothing in the ledger; the checks end n periods later; the run ends 5c after that |
| PreprocessProperties.FinalPeriods | sram/manual-spice/preprocess.py:126-148 | the cursor ends at 15c plus one period per write and one per check |
| PreprocessProperties.FinalTime | sram/manual-spice/preprocess.py:148 | the cursor ends at (15 + 2·num_words)·clk_per |
| PreprocessProperties.EndTime | sram/manual-spice/preprocess.py:126-148 | the program's end time, used to compile every source, is (15 + 2·num_words)·clk_per |
| PreprocessProperties.StampLedger | sram/manual-spice/preprocess.py:120-124 | a ledger built by the check loop from 10c + n periods holds entry i at (11 + n + i)·c |
| PreprocessProperties.LedgerEntries | sram/manual-spice/preprocess.py:144-148 | the i-th entry of the final ledger is stamped (11 + num_words + i)·clk_per and holds the levels of the i-th checked word |
| PreprocessProperties.StampedHasTimes | sram/manual-spice/preprocess.py:122-124 | a ledger stamped check by check has entry i at (11 + n + i)·c |
| PreprocessProperties.LedgerTimed | sram/manual-spice/preprocess.py:144-148 | the final ledger's stamps are (11 + num_words + i)·clk_per and the run ends at (15 + 2·num_words)·clk_per |
| PreprocessProperties.StampedOrdered | sram/manual-spice/preprocess.py:122 | stamps (11 + n + i)·c with c > 0 strictly increase and lie strictly between 0 and (15 + 2n)·c |
| PreprocessProperties.LedgerOrdered | sram/manual-spice/preprocess.py:144-148 | for a positive clock period, ledger timestamps strictly increase and all lie strictly inside (0, end time) |
| PreprocessOutput.ShuffleStimulus | sram/manual-spice/preprocess.py:135-139 | a shuffled `stim` names every address below num_words exactly once, still paired with its own word |
| PreprocessOutput.ComposePermutation | sram/manual-spice/preprocess.py:139-144 | one ordering followed by another is again an ordering of the same indices |
| PreprocessOutput.ShuffleTwice | sram/manual-spice/preprocess.py:139-144 | shuffling twice is one shuffle by the composed ordering |
| PreprocessOutput.EachAddressOnce | sram/manual-spice/preprocess.py:135-146 | in both the write order and the check order, every address occurs exactly once with its own word |
| PreprocessOutput.MemoryOfDistinct | sram/manual-spice/preprocess.py:140-141 | after writes to distinct addresses, each address holds the word written to it |
| PreprocessOutput.ReadsSeeWrites | sram/manual-spice/preprocess.py:140-146 | every check expects the word the writes stored at its address: the ledger holds that word's levels, which decode back to it when vdd is non-zero |
| PreprocessOutput.WritesGrowth | sram/manual-spice/preprocess.py:139-141 | the write phase adds 4·num_words points to each data, address, web0 and clk0 line |
| PreprocessOutput.ChecksGrowth | sram/manual-spice/preprocess.py:143-146 | the check phase adds 4·num_words points to each address, web0 and clk0 line and none to the data lines |
| PreprocessOutput.GrowthChain | sram/manual-spice/preprocess.py:126-146 | bring-up, n writes and n checks together give each line the sum of the points each stage adds |
| PreprocessOutput.GrownWait | sram/manual-spice/preprocess.py:148 | the tail wait changes no source |
| PreprocessOutput.FinalGrowth | sram/manual-spice/preprocess.py:85-148 | over the run, each data line gains 4n points and each address line 8n. web0 gains 2 + 8n, clk0 8n and vdd 2. csb0 is never touched |
| PreprocessOutput.RenderGrown | sram/manual-spice/preprocess.py:26-35 | a fresh source given m puts renders 2m + 2 pairs, starting at (0, 0) with DC level 0 |
| PreprocessOutput.RenderShape | sram/manual-spice/preprocess.py:159-164 | rendering a state that grew that way gives those pair counts, each source starting at (0, 0) with DC level 0 |
| PreprocessOutput.RenderedCounts | sram/manual-spice/preprocess.py:159-164 | rendered pair counts per source: vdd 4, csb0 exactly [(0, 0), (end, 0)], web0 4 + 8n, clk0 2 + 8n, each data line 2 + 4n, each address line 2 + 8n |
| PreprocessOutput.RenderReady | sram/manual-spice/preprocess.py:26-29 | compiling a well-timed source at a later time renders non-decreasing times |
| PreprocessOutput.AfterChecksWellTimed | sram/manual-spice/preprocess.py:126-146 | with t_tr <= 0.4c, every source is time-ordered after the check loop |
| PreprocessOutput.WellTimedLater | sram/manual-spice/preprocess.py:12-13 | advancing the cursor keeps every source time-ordered and behind it |
| PreprocessOutput.FinalWellTimed | sram/manual-spice/preprocess.py:126-148 | with t_tr <= 0.4c, every source is time-ordered and behind the cursor at the end of the run |
| PreprocessOutput.RenderWellTimed | sram/manual-spice/preprocess.py:159-164 | rendering a well-timed state at its cursor gives waveforms with non-decreasing, non-negative times |
| PreprocessOutput.RenderedMonotone | sram/manual-spice/preprocess.py:126-164 | with t_tr <= 0.4c, every rendered waveform has non-decreasing, non-negative times |
| PreprocessOutput.PortLayout | sram/manual-spice/preprocess.py:62-75 | the ports, by position: din0[k], addr0[k], csb0, web0, clk0, dout0[k], vdd, 0. Probe k is V(dout0[k]) |
| PreprocessOutput.InitialSources | sram/manual-spice/preprocess.py:16-80 | data source k is named din0_k and drives din0[k]; address source k is named addr0_k and drives addr0[k]; vdd, csb0, web0 and clk0 are named after and drive themselves; every source holds exactly [(0, 0)] and has the default slew of 1e-12 |
| PreprocessOutput.DrivesAreInputPorts | sram/manual-spice/preprocess.py:62-80 | a source list in the rendered order drives only nodes in the port list |
| PreprocessOutput.ShapedDrives | sram/manual-spice/preprocess.py:62-80 | sources rendered in that order drive vdd, csb0, web0, clk0, din0[k] and addr0[k], each a port of the instance |
| PreprocessOutput.SourcesDrivePorts | sram/manual-spice/preprocess.py:157-164 | the rendered sources drive vdd, csb0, web0, clk0, din0[k], addr0[k] in order, all of them ports of the instance |
| PreprocessOutput.SingleWord | sram/manual-spice/preprocess.py:51 | with one word there are no address lines, the run writes and checks address 0 once, and four control sources plus the data lines are rendered |
| PreprocessOutput.ScenarioLedger | sram/manual-spice/preprocess.py:122-124 | for one-bit words [1, 0] at 3.3 V and a 10 ns period: address 0 expects [3.3], address 1 expects [0.0], and the two stamps are one period apart |
| PreprocessOutput.TwoWordScenario | sram/manual-spice/preprocess.py:106-146 | the same two-word run, whatever the shuffles: two ledger entries, one period apart, with those levels |
| Decimal.NatToString | old/gen_array.py:12 | `f'{k}'`: a non-empty string of decimal digits with no leading zero, one digit exactly for k below 10 |
| Decimal.ParseNatToString | old/gen_array.py:12 | reading the digits back gives k |
| Decimal.NatToStringInjective | old/gen_array.py:12 | two numbers have the same decimal string exactly when they are equal |
| Text.Join | old/gen_array.py:27 | joining no parts gives the empty string, and a join starts with its first part |
| Text.JoinSnoc | old/gen_array.py:27 | joining one more line adds exactly one separator before it: none at the end |
| Text.SplitJoin | old/gen_array.py:27 | splitting a join on a one-character separator that no part contains gives the parts back |
| GenArray.RangeLen | old/gen_array.py:11 | `range(n)` yields n values, and none for a negative n |
| GenArray.Pins | old/gen_array.py:10-14 | the declaration has 4 + n_row + 2·n_col tokens |
| GenArray.InstanceLine | old/gen_array.py:20-21 | an instance line starts with `X` and is longer than bit_name plus one separating space |
| GenArray.InstanceTail | old/gen_array.py:21 | an instance line is its name, the nodes lbl, lblb, vdd, vss and wl of its cell, then a space and bit_name |
| GenArray.Instances | old/gen_array.py:18-21 | there are n_row·n_col instance lines, none for a negative count |
| GenArray.Netlist | old/gen_array.py:7-24 | the netlist has 4 + n_row·n_col lines |
| GenArray.DeclTokens | old/gen_array.py:10-14 | the two loops build exactly the pin list `Pins`: the fixed head, one wl<r> per row, then lbl<c> and lblb<c> per column, 4 + n_row + 2·n_col tokens in all |
| GenArray.WordLinesLayout | old/gen_array.py:11-12 | the row loop puts wl<r> at position r of its part of the pin list |
| GenArray.BitLinesLayout | old/gen_array.py:13-14 | the column loop puts lbl<c> at position 2c and lblb<c> right after it |
| GenArray.PinLayout | old/gen_array.py:10-14 | pin positions: `.subckt`, arr_name, vdd, vss first, wl<r> at 4 + r, lbl<c> and lblb<c> at 4 + n_row + 2c and the next slot |
| GenArray.AppendRow | old/gen_array.py:19-21 | the inner loop appends one line per column, keeps the lines already there, and puts cell (row, c) at offset c |
| GenArray.InstanceLines | old/gen_array.py:18-21 | there are n_row·n_col instance lines; line row·n_col + col instantiates cell (row, col) as `X<idx> lbl<col> lblb<col> vdd vss wl<row> bit_name`, matching the flat-position description |
| GenArray.NetlistShape | old/gen_array.py:7-24 | the netlist is title, blank, declaration, then instance p at line 3 + p, then `.ends`: 4 + n_row·n_col lines |
| GenArray.GenSramArray | old/gen_array.py:4-27 | the lines are title, blank, declaration, instances, `.ends`: 4 + n_row·n_col in all. The text is those lines joined by nl |
| GenArray.RowMajor | old/gen_array.py:18-20 | each position p below n_row·n_col is the row-major position of the cell (p / n_col, p % n_col), and of no other cell |
| GenArray.DeclarationTokens | old/gen_array.py:15 | splitting the declaration line on spaces gives back the pin list, when the array name has no space |
| GenArray.InstanceHead | old/gen_array.py:20-21 | an instance line's first token is its name, X followed by the cell's row-major index |
| GenArray.InstanceNameInjective | old/gen_array.py:21 | two instance names are equal exactly when their indices are |
| GenArray.InstanceIndexOnce | old/gen_array.py:18-21 | instance line p is named X<p>, so each index below n_row·n_col names exactly one line, and two lines share a name only if they are the same line |
| GenArray.TextEnds | old/gen_array.py:24-27 | the text ends with nl then `.ends`: there is no trailing separator |
| GenArray.TextSplitsIntoLines | old/gen_array.py:27 | splitting the text on a control-character separator absent from both names gives back exactly the lines |
| GenArray.DefaultCall | old/gen_array.py:4 | with the defaults `sram_bit`, `sram_array` and `'\n'`, the declaration splits back into its pins and the text splits back into its lines |
| GenArray.MainCall | old/gen_array.py:29-31 | the script's own 4 by 8 call gives 36 lines and a declaration of 24 tokens, and both round trips hold |

## Left out

- Command-line parsing (`sys.argv`), the `OPENRAM_TECH` environment variable and path handling (preprocess.py lines 42-59). These are inputs to the program, not logic. The model takes `num_words`, `word_size`, `vdd` and `clk_per` as parameters.
- The SPICE text (preprocess.py lines 32-39 and 150-176). This covers the `.include` lines, the `X0` instance line, `.tran`, `.control` and `.probe`, and Python's float-to-string formatting. A rendered source is modelled as its name, drive node, DC level and point list, and the program as its port lists, rendered sources, end time and ledger.
- Writing `test.sp` and pickling `expct.p` (preprocess.py lines 178-182), and the file write in `gen_sram_array` (gen_array.py lines 26-27). These are I/O.
- The random number generator. `randint` and `shuffle` are replaced by their results, passed in: a word per address below `2^word_size`, and two permutations.
- IEEE floating point. Times and voltages are exact reals, so rounding in sums such as `0.1*clk_per` is not modelled. `log2` is modelled exactly, as the least width whose power of two covers the word count. For very large counts, the float `log2` could round differently.
- Bits.Bit: models only non-negative values. Python's `>>` on a negative word or address, and a negative `word_size` in `range`/`1<<`, are excluded by taking these as natural numbers.
- Preprocess.Configure: models a non-positive `num_words` as an error, as `log2` raises one. A negative `word_size` makes `(1<<word_size)` fail in Python; it is excluded by the `nat` type.
- GenArray.TextSplitsIntoLines: proved for a one-character separator that is a control character such as the default `'\n'`. Separators of several characters, and printable ones that may occur inside a line, are not covered.
- GenArray.DeclarationTokens: assumes an array name without spaces. A name with spaces would split into more tokens.
- `sram/manual-spice/postprocess.py` and the other scripts of the repository (`sram/sram.py`, `sram/fault/sim.py`, the `mybit`, `myinv` and `myinv_tf` scripts) are not part of this model. They wrap an external test library, a simulator and plotting.
