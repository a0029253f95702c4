/**
 * The data srun's option processing works on: the `opt` record with the
 * enumerations it uses, and the writes that popt and the environment table
 * make through the field pointers of their tables.
 */
module Types {

  /** A C pointer that may be NULL. */
  datatype Option<+T> = None | Some(value: T)

  /** `enum io_t`: how one of stdin, stdout and stderr is redirected. */
  datatype IoType = IoNormal | IoAll | IoPerTask | IoNone

  /** `enum distribution_t`. */
  datatype Distribution = DistBlock | DistCyclic | DistUnknown

  /** The run mode srun is in: `MODE_NORMAL`, `MODE_ALLOCATE`, `MODE_ATTACH`. */
  datatype Mode = ModeNormal | ModeAllocate | ModeAttach

  /** The identity `getpwuid(getuid())` reports. */
  datatype Passwd = Passwd(name: string, uid: int)

  /**
   * The global `opt` record. `stdinMode`, `stdoutMode` and `stderrMode` hold
   * the raw text of SLURM_STDINMODE, SLURM_STDOUTMODE and SLURM_STDERRMODE,
   * which the environment table stores through the addresses of `opt.input`,
   * `opt.output` and `opt.error`; that text is never interpreted.
   */
  datatype Opt = Opt(
    user: string, uid: int, cwd: string, progname: Option<string>,
    nprocs: int, cpus: int, nodes: int, partition: Option<string>,
    jobName: string, distribution: Distribution,
    output: IoType, input: IoType, error: IoType,
    ofname: Option<string>, ifname: Option<string>, efname: Option<string>,
    stdinMode: Option<string>, stdoutMode: Option<string>, stderrMode: Option<string>,
    coreFormat: string,
    labelio: bool, overcommit: bool, immediate: bool,
    allocate: bool, attach: Option<string>, join: bool,
    mincpus: int, realmem: int, tmpdisk: int,
    constraints: Option<string>, contiguous: bool, nodelist: Option<string>, noAlloc: bool)

  /** The constraint fields, the ones `constraints_given()` looks at. */
  datatype Constraints = Constraints(
    mincpus: int, realmem: int, tmpdisk: int,
    constraints: Option<string>, contiguous: bool, nodelist: Option<string>)

  function ConstraintsOf(o: Opt): Constraints {
    Constraints(o.mincpus, o.realmem, o.tmpdisk, o.constraints, o.contiguous, o.nodelist)
  }

  /** `int` fields a table points at. */
  datatype IntField = FNprocs | FCpus | FNodes | FMincpus

  /** `char *` fields a table points at. */
  datatype StrField = FPartition | FJobName | FAttach | FConstraints | FNodelist
                    | FStdinMode | FStdoutMode | FStderrMode

  /** Flag fields a table points at. */
  datatype FlagField = FImmediate | FOvercommit | FLabelio | FAllocate | FContiguous | FNoAlloc

  /** The `arg` pointer of a table entry: NULL or the address of one field. */
  datatype Target = NoTarget | IntTarget(i: IntField) | StrTarget(s: StrField) | FlagTarget(f: FlagField)

  /** `*(int *) arg = n`. */
  function WriteInt(o: Opt, f: IntField, n: int): Opt
  {
    match f
    case FNprocs => o.(nprocs := n)
    case FCpus => o.(cpus := n)
    case FNodes => o.(nodes := n)
    case FMincpus => o.(mincpus := n)
  }

  /** `*(char **) arg = s`. */
  function WriteStr(o: Opt, f: StrField, s: string): Opt
  {
    match f
    case FPartition => o.(partition := Some(s))
    case FJobName => o.(jobName := s)
    case FAttach => o.(attach := Some(s))
    case FConstraints => o.(constraints := Some(s))
    case FNodelist => o.(nodelist := Some(s))
    case FStdinMode => o.(stdinMode := Some(s))
    case FStdoutMode => o.(stdoutMode := Some(s))
    case FStderrMode => o.(stderrMode := Some(s))
  }

  /** `*(int *) arg = 1`, what popt does for an option without argument. */
  function WriteFlag(o: Opt, f: FlagField): Opt
  {
    match f
    case FImmediate => o.(immediate := true)
    case FOvercommit => o.(overcommit := true)
    case FLabelio => o.(labelio := true)
    case FAllocate => o.(allocate := true)
    case FContiguous => o.(contiguous := true)
    case FNoAlloc => o.(noAlloc := true)
  }

  /** An integer field write leaves the mode fields alone. */
  lemma WriteIntFrame(o: Opt, f: IntField, n: int)
    ensures WriteInt(o, f, n).allocate == o.allocate && WriteInt(o, f, n).attach == o.attach
  {
    match f
    case FNprocs =>
    case FCpus =>
    case FNodes =>
    case FMincpus =>
  }

  /** A string field write sets the attach id only through `FAttach`. */
  lemma WriteStrFrame(o: Opt, f: StrField, s: string)
    ensures WriteStr(o, f, s).allocate == o.allocate
    ensures WriteStr(o, f, s).attach == if f == FAttach then Some(s) else o.attach
  {
    match f
    case FPartition =>
    case FJobName =>
    case FAttach =>
    case FConstraints =>
    case FNodelist =>
    case FStdinMode =>
    case FStdoutMode =>
    case FStderrMode =>
  }

  /** A flag write sets the allocate flag only through `FAllocate`. */
  lemma WriteFlagFrame(o: Opt, f: FlagField)
    ensures WriteFlag(o, f).allocate == (o.allocate || f == FAllocate)
    ensures WriteFlag(o, f).attach == o.attach
  {
    match f
    case FImmediate =>
    case FOvercommit =>
    case FLabelio =>
    case FAllocate =>
    case FContiguous =>
    case FNoAlloc =>
  }

  /** The fields only the second switch of `opt_args` sets: no table points at them. */
  datatype SwitchPart = SwitchPart(
    output: IoType, input: IoType, error: IoType,
    ofname: Option<string>, ifname: Option<string>, efname: Option<string>,
    distribution: Distribution, cwd: string, realmem: int, tmpdisk: int)

  function SwitchFields(o: Opt): SwitchPart {
    SwitchPart(o.output, o.input, o.error, o.ofname, o.ifname, o.efname,
               o.distribution, o.cwd, o.realmem, o.tmpdisk)
  }

  /** An integer field write changes only its own count and no switch field. */
  lemma WriteIntCounts(o: Opt, f: IntField, n: int)
    ensures var p := WriteInt(o, f, n);
      && p.nprocs == (if f == FNprocs then n else o.nprocs)
      && p.cpus == (if f == FCpus then n else o.cpus)
      && p.nodes == (if f == FNodes then n else o.nodes)
      && p.mincpus == (if f == FMincpus then n else o.mincpus)
      && p.partition == o.partition
      && SwitchFields(p) == SwitchFields(o)
  {
    match f
    case FNprocs =>
    case FCpus =>
    case FNodes =>
    case FMincpus =>
  }

  /** A string field write changes the partition only through `FPartition`, and no count. */
  lemma WriteStrCounts(o: Opt, f: StrField, s: string)
    ensures var p := WriteStr(o, f, s);
      && p.nprocs == o.nprocs && p.cpus == o.cpus && p.nodes == o.nodes && p.mincpus == o.mincpus
      && p.partition == (if f == FPartition then Some(s) else o.partition)
      && SwitchFields(p) == SwitchFields(o)
  {
    match f
    case FPartition =>
    case FJobName =>
    case FAttach =>
    case FConstraints =>
    case FNodelist =>
    case FStdinMode =>
    case FStdoutMode =>
    case FStderrMode =>
  }

  /** A flag write changes no count, no partition and no switch field. */
  lemma WriteFlagCounts(o: Opt, f: FlagField)
    ensures var p := WriteFlag(o, f);
      && p.nprocs == o.nprocs && p.cpus == o.cpus && p.nodes == o.nodes && p.mincpus == o.mincpus
      && p.partition == o.partition
      && SwitchFields(p) == SwitchFields(o)
  {
    match f
    case FImmediate =>
    case FOvercommit =>
    case FLabelio =>
    case FAllocate =>
    case FContiguous =>
    case FNoAlloc =>
  }
}
