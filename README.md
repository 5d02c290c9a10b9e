# TheBandwidthBenchmark harness, modelled in Dafny

TheBandwidthBenchmark measures sustained memory bandwidth. It runs eight
vector kernels (init, sum, copy, update, triad, daxpy, striad, sdaxpy) over
four large buffers `a`, `b`, `c`, `d`, NTIMES = 10 times each. Every
kernel's wall-clock time goes into a `times[kernel][repetition]` table.
Per kernel, the harness then reports:

- the average, minimum and maximum time, with repetition 0 (the warm-up)
  excluded;
- the bandwidth `1e-6 * bytes / minimum` in MB/s.

Finally `check` validates the buffers. It replays the kernel arithmetic on
four scalar trackers, scales them by N and compares each against the sum of
its buffer. It reports the first buffer whose relative error exceeds 1e-8,
or success.

This project models the harness in `src/main.c`, one module per concern:

- `Config` (config.dfy): the constants, the kernel enumeration, the bytes
  table and the label table.
- `Kernels` (kernels.dfy): the eight kernels as methods over arrays. Each
  one's effect on its buffers is its documented arithmetic. The time it
  reports is a parameter.
- `Recurrence` (recurrence.dfy):
  - the tracker step that one repetition applies to every element;
  - its iteration and closed form;
  - the expected sums.
- `Stats` (stats.dfy):
  - MIN, MAX and the running folds;
  - the summary of one kernel's timings, with the warm-up excluded;
  - the bandwidth, including what a zero minimum time gives.
- `Validator` (validator.dfy): the relative-error test, the verdict chain
  and the `check` routine.
- `Harness` (harness.dfy): the body of `main`. This covers the buffer
  initialisation, the timing loop with the `a[10]` save and restore, the
  aggregation loops, the report loop and the end-to-end run.

Arithmetic is exact (`real`). In exact arithmetic the end-to-end run always
validates, for every problem size N > 10. `Harness.Benchmark` states this.

The kernel bodies are not part of this model (`src/main.c` only declares
them). Their element-wise effect follows their documented contract.

`Kernels.Sum` is modelled as a kernel that may overwrite `a[10]` with its
total. Its contract promises only that every other element is kept. The
documentation calls sum read-only, but the harness saves `a[10]` before the
call and writes it back after it (lines 147-149). Modelled this way, the
save and restore is what the proof of the timing loop relies on.

## Model

| member | source | states |
|---|---|---|
| Config.Ord | src/main.c:56-66 | every kernel's position in the enumeration is below NUMBENCH |
| Config.KernelAt | src/main.c:56-66 | the kernel at position j has position j (inverse of Ord) |
| Config.KernelAtOrd | src/main.c:56-66 | Ord followed by KernelAt gives back the kernel: the enumeration is a bijection onto [0, NUMBENCH) |
| Config.StreamsInOrder | src/main.c:92-101 | counting buffers read plus buffers written, the per-element streams in enumeration order are exactly 1,1,2,2,3,3,4,4 |
| Config.BytesTable | src/main.c:92-101 | eight entries; entry j is the stream count of kernel j times sizeof(double) times N |
| Config.LabelTable | src/main.c:103-111 | eight labels, label j being the name of kernel j and a colon, right-padded with blanks to width 12 |
| Kernels.Init | src/main.c:146 | b becomes all scalar; the reported time is the clock reading, non-negative |
| Kernels.Sum | src/main.c:148 | every element of a other than a[10] is kept; non-negative time |
| Kernels.Copy | src/main.c:150 | c becomes a copy of a; non-negative time |
| Kernels.Update | src/main.c:151 | a[i] becomes old a[i] * scalar for every i; non-negative time |
| Kernels.Triad | src/main.c:152 | a[i] becomes b[i] + scalar * c[i]; non-negative time |
| Kernels.Daxpy | src/main.c:153 | a[i] becomes old a[i] + scalar * b[i]; non-negative time |
| Kernels.STriad | src/main.c:154 | a[i] becomes b[i] + c[i] * d[i]; non-negative time |
| Kernels.SDaxpy | src/main.c:155 | a[i] becomes old a[i] + b[i] * c[i]; non-negative time |
| Recurrence.Step | src/main.c:205-213 | one tracker iteration gives b = scalar, c = previous a, d unchanged and a = scalar + a*d + scalar*a: striad overwrites what update, triad and daxpy produced |
| Recurrence.IterateClosedForm | src/main.c:197-213 | from the seeds 2, 2, 0.5, 1 with scalar 3, after k iterations a = 3*4^k - 1; for k >= 1, b = 3, c = 3*4^(k-1) - 1 and d = 1 |
| Recurrence.Iterate | src/main.c:205-213 | the trackers after k iterations of the loop: d never changes, and after at least one iteration b holds the scalar |
| Recurrence.Scale | src/main.c:215-218 | every tracker multiplied by N, the sum expected over N elements that all equal the trackers; that meaning is proved by Harness.UniformSums (its own ensures only pins the cases N = 0 and N = 1) |
| Recurrence.Expected | src/main.c:197-218 | the expected sums after NTIMES = 10 iterations from the seeds, scaled by N, are 3145727*N, 3*N, 786431*N and N |
| Stats.Min | src/main.c:46-48 | the MIN macro: at most both arguments and equal to one of them |
| Stats.Max | src/main.c:49-51 | the MAX macro: at least both arguments and equal to one of them |
| Stats.Total | src/main.c:160 | the running sum from 0, element by element left to right; its properties are stated by Stats.TotalBounds and Stats.TotalConstant |
| Stats.MinFold | src/main.c:161 | the running MIN from a start value: at most the start and at most every element folded |
| Stats.MaxFold | src/main.c:162 | the running MAX from a start value: at least the start and at least every element folded |
| Stats.MinFoldAttained | src/main.c:161 | the running MIN is its start value or one of the elements |
| Stats.MaxFoldAttained | src/main.c:162 | the running MAX is its start value or one of the elements |
| Stats.TotalBounds | src/main.c:160 | a sum of elements in [lo, hi] lies between len*lo and len*hi |
| Stats.TotalConstant | src/main.c:222-227 | a sum of len copies of v is len*v |
| Stats.Summarize | src/main.c:158-169 | avg, min and max of one row over repetitions 1..NTIMES-1 (sum over NTIMES-1, MIN from FLT_MAX, MAX from 0); min <= times[j][1] <= max |
| Stats.SummaryBounds | src/main.c:158-164 | after aggregation, min <= times[j][k] <= max for every k in [1, NTIMES) |
| Stats.SummaryAttained | src/main.c:118-164 | with timings in [0, FLT_MAX), the minimum and the maximum are each equal to some times[j][k] with k >= 1 |
| Stats.SummaryOrdered | src/main.c:158-169 | whenever there is at least one repetition after the warm-up, min <= avg <= max, whatever the timings |
| Stats.QuotientBetween | src/main.c:169 | dividing a sum bounded by len*lo and len*hi by len > 0 gives a value in [lo, hi] |
| Stats.MeanBetween | src/main.c:169 | the mean of a non-empty sequence whose elements lie in [lo, hi] lies in [lo, hi] |
| Stats.WarmupIgnored | src/main.c:159 | replacing the warm-up timing times[j][0] changes none of avg, min, max |
| Stats.SummaryExample | src/main.c:158-169 | warm-up 100 then 1, 2, 3 gives avg 2, min 1, max 3 |
| Stats.Bandwidth | src/main.c:172 | a number exactly when min time is non-zero, and then rate * min = 1e-6 * bytes; +inf exactly when min is zero and bytes positive, otherwise NaN |
| Stats.BandwidthAntitone | src/main.c:172 | a longer minimum time never reports a higher bandwidth |
| Stats.BandwidthExample | src/main.c:172 | 8,000,000 bytes in 0.01 s is 800 MB/s |
| Validator.Abs | src/main.c:52-54 | the result is non-negative and is x or -x |
| Validator.Exceeds | src/main.c:237 | the relative-error test with double semantics for a zero observed sum; it can fire only for a non-negative observed sum that differs from the expected one |
| Validator.ExceedsScaled | src/main.c:237 | for a positive observed sum the test fails exactly when abs(expected - observed) > 1e-8 * observed |
| Validator.Judge | src/main.c:237-258 | the if/else-if chain over a, b, c, d; a buffer it names fails the test |
| Validator.JudgeFirstFailure | src/main.c:237-256 | the chain names buffer x exactly when x fails and every buffer tested before it in the order a, b, c, d passes |
| Validator.JudgeValidates | src/main.c:237-259 | success is reported exactly when no buffer fails |
| Validator.JudgeExact | src/main.c:235-259 | observed sums equal to the expected ones validate |
| Validator.Observed | src/main.c:220-227 | the plain element sum of each buffer, compared against the expected sums; its properties are stated by Validator.ObservedAppend, Harness.UniformSums and Validator.Check |
| Validator.ObservedAppend | src/main.c:222-227 | one more element in every buffer adds exactly that element to each of the four sums, the step the summing loop takes per index |
| Validator.Check | src/main.c:184-260 | the verdict is the chain applied to the closed-form expected sums times N and the plain element sums of the first N elements |
| Harness.IterateAllPointwise | src/main.c:145-156 | k repetitions over whole buffers move each element by k tracker steps, independently of the others |
| Harness.UniformRun | src/main.c:135-156 | buffers initialised to the seeds hold the closed-form values at every element after k repetitions |
| Harness.InitArrays | src/main.c:135-141 | every element of a, b, c, d holds 2, 2, 0.5, 1 |
| Harness.GuardedSum | src/main.c:147-149 | with a[10] saved and written back around sum, a is unchanged whatever sum leaves at index 10 |
| Harness.Repetition | src/main.c:146-155 | column k of the table holds the eight reported times and no other entry changes; the buffers are the composition of the eight kernels, and every element takes one tracker step |
| Harness.ElementStep | src/main.c:205-212 | per element, the buffers the kernel sequence leaves are one tracker step of the buffers before it |
| Harness.TimingLoop | src/main.c:145-156 | the table holds every reported time, and the buffers are NTIMES tracker steps from where they started |
| Harness.InitStats | src/main.c:118-122 | sums and maxima start at 0, minima at FLT_MAX |
| Harness.Aggregate | src/main.c:158-164 | for each kernel, the sum, MIN and MAX of the row's repetitions 1..NTIMES-1 are folded into the accumulators; repetition 0 is not read |
| Harness.Report | src/main.c:168-176 | each sum becomes the average over NTIMES-1 in place, and line j pairs label j with the bandwidth from the minimum and the three times |
| Harness.Line | src/main.c:171-175 | the printed line for kernel j: label, bandwidth from the minimum, average, minimum, maximum; min <= avg <= max, and a number of MB/s exactly when the minimum is not zero |
| Harness.LineWarmupIgnored | src/main.c:158-176 | a report line does not depend on the warm-up timing |
| Harness.Statistics | src/main.c:118-176 | report line j is the label, bandwidth, average, minimum and maximum of kernel j's own row, warm-up excluded |
| Harness.UniformSums | src/main.c:220-227 | buffers whose elements all equal the same values sum to those values times N |
| Harness.Benchmark | src/main.c:79-182 | for every N > 10 and any non-negative timings, each report line summarises that kernel's timings with the warm-up excluded, and the validation reports success |

## Left out

- Kernel bodies: they are defined outside `src/main.c`. Each is modelled by its documented per-element arithmetic. The clock reading it returns is a parameter `elapsed`, required to be non-negative.
- Kernels.Sum: its total is not modelled as a return value (the harness discards it). The model lets sum clobber `a[10]`; the documentation says it is read-only.
- `allocate` and the 64-byte alignment (lines 113-116): a foreign allocator. Pointer alignment is not expressible; buffers are fresh Dafny arrays.
- OpenMP thread reporting and the `parallel for` initialisation (lines 124-141): concurrency. The initialisation is a sequential fill.
- `printf` formatting, `HLINE`, the `VERBOSE` block and the printed validation messages. The verdict is a value instead of printed text.
- The exit status: `main` returns `EXIT_SUCCESS` whatever the verdict.
- IEEE double rounding and the order-dependent rounding of the observed sums: arithmetic is over `real`. The zero-denominator cases of the relative-error test and of the bandwidth follow IEEE semantics (+inf, NaN).
- The `size_t N` to `int N` narrowing when `check` is called (lines 179, 189): N is a `nat`.
- The fixed SIZE = 20,000,000: `Harness.Benchmark` takes N as a parameter. It requires N > 10 because the save and restore touches `a[10]`.
- Harness.Statistics: the accumulator arrays are allocated and reset inside the statistics phase. The source declares them at the top of `main` and resets them before the buffers are initialised. Neither order affects any value.
- Kernels.Init and the other kernel methods: the `int n` element-count parameter is the array length.
