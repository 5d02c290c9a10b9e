/** Run constants, the kernel enumeration and the per-kernel tables of the
    bandwidth benchmark (bytes moved and display label). */
module Config {

  /** Repetitions of the kernel sequence; repetition 0 is the warm-up. */
  const NTIMES: nat := 10
  /** Number of kernels in the enumeration. */
  const NUMBENCH: nat := 8
  /** Problem size N: elements per buffer. */
  const SIZE: nat := 20000000
  /** sizeof(double). */
  const WORD_BYTES: nat := 8
  /** The scalar every kernel that needs a constant uses. */
  const SCALAR: real := 3.0
  /** FLT_MAX of float.h, the initial value of every minimum accumulator. */
  const FLT_MAX: real := 340282346638528859811704183484516925440.0
  /** Relative-error tolerance of the validation. */
  const EPSILON: real := 0.00000001

  /** The kernels, in the order of the benchmark enumeration. */
  datatype Kernel = Init | Sum | Copy | Update | Triad | Daxpy | STriad | SDaxpy

  /** The four buffers the kernels operate on. */
  datatype Operand = A | B | C | D

  /** Position of a kernel in the enumeration (its row in every table). */
  function Ord(k: Kernel): (j: nat)
    ensures j < NUMBENCH
  {
    match k
    case Init => 0
    case Sum => 1
    case Copy => 2
    case Update => 3
    case Triad => 4
    case Daxpy => 5
    case STriad => 6
    case SDaxpy => 7
  }

  /** The kernel at a position of the enumeration. */
  function KernelAt(j: nat): (k: Kernel)
    requires j < NUMBENCH
    ensures Ord(k) == j
  {
    [Init, Sum, Copy, Update, Triad, Daxpy, STriad, SDaxpy][j]
  }

  /** Ord and KernelAt are inverse: the enumeration is a bijection onto [0, NUMBENCH). */
  lemma KernelAtOrd(k: Kernel)
    ensures KernelAt(Ord(k)) == k
  {
  }

  /** Buffers a kernel reads in its pass. */
  function Reads(k: Kernel): set<Operand>
  {
    match k
    case Init => {}
    case Sum => {A}
    case Copy => {A}
    case Update => {A}
    case Triad => {B, C}
    case Daxpy => {A, B}
    case STriad => {B, C, D}
    case SDaxpy => {A, B, C}
  }

  /** Buffers a kernel writes in its pass (Sum's total is not retained). */
  function Writes(k: Kernel): set<Operand>
  {
    match k
    case Init => {B}
    case Sum => {}
    case Copy => {C}
    case Update | Triad | Daxpy | STriad | SDaxpy => {A}
  }

  /** Element streams a kernel moves per index: one per buffer read, one per buffer written. */
  function Streams(k: Kernel): nat
  {
    |Reads(k)| + |Writes(k)|
  }

  /** The stream counts in enumeration order are exactly 1,1,2,2,3,3,4,4. */
  lemma StreamsInOrder()
    ensures seq(NUMBENCH, j requires 0 <= j < NUMBENCH => Streams(KernelAt(j))) == [1, 1, 2, 2, 3, 3, 4, 4]
  {
    assert |{B, C}| == 2;
    assert |{A, B}| == 2;
    assert |{B, C, D}| == 3;
    assert |{A, B, C}| == 3;
  }

  /** The bytes table: traffic of one pass of each kernel over N doubles. */
  function BytesTable(n: nat): (t: seq<nat>)
    ensures |t| == NUMBENCH
    ensures forall j :: 0 <= j < NUMBENCH ==> t[j] == Streams(KernelAt(j)) * WORD_BYTES * n
  {
    StreamsInOrder();
    assert forall j :: 0 <= j < NUMBENCH ==> Streams(KernelAt(j)) == [1, 1, 2, 2, 3, 3, 4, 4][j];
    [ 1 * WORD_BYTES * n,   // init
      1 * WORD_BYTES * n,   // sum
      2 * WORD_BYTES * n,   // copy
      2 * WORD_BYTES * n,   // update
      3 * WORD_BYTES * n,   // triad
      3 * WORD_BYTES * n,   // daxpy
      4 * WORD_BYTES * n,   // striad
      4 * WORD_BYTES * n ]  // sdaxpy
  }

  /** The kernel's name as the report shows it. */
  function Name(k: Kernel): string
  {
    match k
    case Init => "Init"
    case Sum => "Sum"
    case Copy => "Copy"
    case Update => "Update"
    case Triad => "Triad"
    case Daxpy => "Daxpy"
    case STriad => "STriad"
    case SDaxpy => "SDaxpy"
  }

  /** Width of the label column of the report. */
  const LABEL_WIDTH: nat := 12

  /** A label: the name and a colon, right-padded with blanks to the column width. */
  predicate Padded(text: string, name: string)
  {
    |text| == LABEL_WIDTH && |name| + 1 <= LABEL_WIDTH &&
    text[..|name| + 1] == name + ":" &&
    forall i :: |name| + 1 <= i < LABEL_WIDTH ==> text[i] == ' '
  }

  /** The label table: every label is the kernel's name, padded. */
  function LabelTable(): (t: seq<string>)
    ensures |t| == NUMBENCH
    ensures forall j :: 0 <= j < NUMBENCH ==> Padded(t[j], Name(KernelAt(j)))
  {
    var t := [ "Init:       ",
               "Sum:        ",
               "Copy:       ",
               "Update:     ",
               "Triad:      ",
               "Daxpy:      ",
               "STriad:     ",
               "SDaxpy:     " ];
    assert Padded(t[0], "Init") && Padded(t[1], "Sum");
    assert Padded(t[2], "Copy") && Padded(t[3], "Update");
    assert Padded(t[4], "Triad") && Padded(t[5], "Daxpy");
    assert Padded(t[6], "STriad") && Padded(t[7], "SDaxpy");
    t
  }
}
