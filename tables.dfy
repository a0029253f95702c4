/**
 * The static data of opt.c: the `OPT_*` codes, the popt option tables
 * (run, allocate, attach, constraint and other options, in the order the
 * full table includes them) and the `env_vars[]` table. The popt scanner
 * itself is abstracted: it hands the option loop one `Token` per option it
 * recognised, naming the table entry and carrying the converted argument.
 */
module Tables {
  import opened Types

  /** The `OPT_*` value of a table entry; `Silent` is the value 0. */
  datatype Tag = Silent
               | TNprocs | TCpus | TNodes | TPartition | TDistrib
               | TOutput | TInput | TError | TVerbose | TDebug
               | TAllocate | TAttach | TVersion | TCddir
               | TMincpus | TRealmem | TTmpdisk | TContig | TNodelist | TConstraint | TNoAlloc

  /** The numeric value of each code, as the `#define`s give it. */
  function Code(t: Tag): int {
    match t
    case Silent => 0x00
    case TNprocs => 0x03
    case TCpus => 0x04
    case TNodes => 0x05
    case TPartition => 0x06
    case TDistrib => 0x08
    case TOutput => 0x09
    case TInput => 0x0a
    case TError => 0x0b
    case TVerbose => 0x0d
    case TDebug => 0x0e
    case TAllocate => 0x0f
    case TAttach => 0x10
    case TVersion => 0x12
    case TCddir => 0x15
    case TMincpus => 0x50
    case TRealmem => 0x51
    case TTmpdisk => 0x53
    case TContig => 0x54
    case TNodelist => 0x55
    case TConstraint => 0x56
    case TNoAlloc => 0x57
  }

  /** What the `switch` on a `poptGetNextOpt` result recognises. */
  function FromCode(n: int): Option<Tag> {
    if n == 0x03 then Some(TNprocs) else if n == 0x04 then Some(TCpus)
    else if n == 0x05 then Some(TNodes) else if n == 0x06 then Some(TPartition)
    else if n == 0x08 then Some(TDistrib) else if n == 0x09 then Some(TOutput)
    else if n == 0x0a then Some(TInput) else if n == 0x0b then Some(TError)
    else if n == 0x0d then Some(TVerbose) else if n == 0x0e then Some(TDebug)
    else if n == 0x0f then Some(TAllocate) else if n == 0x10 then Some(TAttach)
    else if n == 0x12 then Some(TVersion) else if n == 0x15 then Some(TCddir)
    else if n == 0x50 then Some(TMincpus) else if n == 0x51 then Some(TRealmem)
    else if n == 0x53 then Some(TTmpdisk) else if n == 0x54 then Some(TContig)
    else if n == 0x55 then Some(TNodelist) else if n == 0x56 then Some(TConstraint)
    else if n == 0x57 then Some(TNoAlloc) else None
  }

  /**
   * Every code that reaches the switch is positive, so the `> 0` loop test
   * lets it through, and the switch tells all codes apart; an entry with
   * value 0 never reaches the switch.
   */
  lemma CodesDecode(t: Tag)
    ensures t == Silent <==> Code(t) <= 0
    ensures t != Silent ==> FromCode(Code(t)) == Some(t)
    ensures t == Silent ==> FromCode(Code(t)) == None
  {
  }

  /** `POPT_ARG_NONE`, `POPT_ARG_INT`, `POPT_ARG_STRING`. */
  datatype ArgInfo = ArgNone | ArgInt | ArgString

  /** One `struct poptOption`: long and short name, argument kind, `arg` pointer and value. */
  datatype OptionDesc = OptionDesc(longName: string, shortName: char, argInfo: ArgInfo,
                                   target: Target, tag: Tag)

  const RunTable: seq<OptionDesc> := [
    OptionDesc("nprocs", 'n', ArgInt, IntTarget(FNprocs), TNprocs),
    OptionDesc("cpus-per-task", 'c', ArgInt, IntTarget(FCpus), TCpus),
    OptionDesc("nodes", 'N', ArgInt, IntTarget(FNodes), TNodes),
    OptionDesc("partition", 'p', ArgString, StrTarget(FPartition), TPartition),
    OptionDesc("cddir", 'D', ArgString, NoTarget, TCddir),
    OptionDesc("immediate", 'I', ArgNone, FlagTarget(FImmediate), Silent),
    OptionDesc("overcommit", 'O', ArgNone, FlagTarget(FOvercommit), Silent),
    OptionDesc("label", 'l', ArgNone, FlagTarget(FLabelio), Silent),
    OptionDesc("distribution", 'm', ArgString, NoTarget, TDistrib),
    OptionDesc("job-name", 'J', ArgString, StrTarget(FJobName), Silent),
    OptionDesc("output", 'o', ArgString, NoTarget, TOutput),
    OptionDesc("input", 'i', ArgString, NoTarget, TInput),
    OptionDesc("error", 'e', ArgString, NoTarget, TError),
    OptionDesc("verbose", 'v', ArgNone, NoTarget, TVerbose),
    OptionDesc("debug", 'd', ArgNone, NoTarget, TDebug)
  ]

  const AllocateTable: seq<OptionDesc> := [
    OptionDesc("allocate", 'A', ArgNone, FlagTarget(FAllocate), TAllocate)
  ]

  const AttachTable: seq<OptionDesc> := [
    OptionDesc("attach", 'a', ArgString, StrTarget(FAttach), TAttach)
  ]

  const ConstraintTable: seq<OptionDesc> := [
    OptionDesc("mincpus", '\0', ArgInt, IntTarget(FMincpus), TMincpus),
    OptionDesc("mem", '\0', ArgString, NoTarget, TRealmem),
    OptionDesc("tmp", '\0', ArgString, NoTarget, TTmpdisk),
    OptionDesc("constraint", 'C', ArgString, StrTarget(FConstraints), TConstraint),
    OptionDesc("contiguous", '\0', ArgNone, FlagTarget(FContiguous), TContig),
    OptionDesc("nodelist", 'w', ArgString, StrTarget(FNodelist), TNodelist),
    OptionDesc("no-allocate", 'Z', ArgNone, FlagTarget(FNoAlloc), TNoAlloc)
  ]

  const OtherTable: seq<OptionDesc> := [
    OptionDesc("version", 'V', ArgNone, NoTarget, TVersion)
  ]

  /** `options[]`: the tables it includes, in order (popt's own help entries left out). */
  const OptionTable: seq<OptionDesc> :=
    RunTable + AllocateTable + AttachTable + ConstraintTable + OtherTable

  /** The `arg` pointer of an entry has the type its argument kind stores. */
  predicate TargetFits(d: OptionDesc) {
    match d.target
    case NoTarget => true
    case IntTarget(_) => d.argInfo == ArgInt
    case StrTarget(_) => d.argInfo == ArgString
    case FlagTarget(_) => d.argInfo == ArgNone
  }

  /**
   * What each entry promises: its pointer fits its argument kind, the
   * allocate flag, the attach id, the three counts, `mincpus` and the
   * partition are written by their own entry only, and an entry with value
   * 0 has a pointer to store through.
   */
  predicate EntryConsistent(d: OptionDesc) {
    && TargetFits(d)
    && (d.target == FlagTarget(FAllocate) <==> d.tag == TAllocate)
    && (d.target == StrTarget(FAttach) <==> d.tag == TAttach)
    && (d.target == IntTarget(FNprocs) <==> d.tag == TNprocs)
    && (d.target == IntTarget(FCpus) <==> d.tag == TCpus)
    && (d.target == IntTarget(FNodes) <==> d.tag == TNodes)
    && (d.target == IntTarget(FMincpus) <==> d.tag == TMincpus)
    && (d.target == StrTarget(FPartition) <==> d.tag == TPartition)
    && (d.tag == Silent ==> d.target != NoTarget)
  }

  predicate AllConsistent(ds: seq<OptionDesc>) {
    forall i :: 0 <= i < |ds| ==> EntryConsistent(ds[i])
  }

  lemma ConcatConsistent(a: seq<OptionDesc>, b: seq<OptionDesc>)
    requires AllConsistent(a) && AllConsistent(b)
    ensures AllConsistent(a + b)
  {
    assert forall i :: 0 <= i < |a + b| ==> (a + b)[i] == if i < |a| then a[i] else b[i - |a|];
  }

  lemma RunTableQuarter1()
    ensures AllConsistent(RunTable[..4])
  {
  }

  lemma RunTableQuarter2()
    ensures AllConsistent(RunTable[4..8])
  {
  }

  lemma RunTableQuarter3()
    ensures AllConsistent(RunTable[8..12])
  {
  }

  lemma RunTableQuarter4()
    ensures AllConsistent(RunTable[12..])
  {
  }

  lemma RunTableConsistent()
    ensures AllConsistent(RunTable)
  {
    RunTableQuarter1();
    RunTableQuarter2();
    RunTableQuarter3();
    RunTableQuarter4();
    ConcatConsistent(RunTable[..4], RunTable[4..8]);
    ConcatConsistent(RunTable[8..12], RunTable[12..]);
    assert RunTable[..4] + RunTable[4..8] == RunTable[..8];
    assert RunTable[8..12] + RunTable[12..] == RunTable[8..];
    ConcatConsistent(RunTable[..8], RunTable[8..]);
    assert RunTable[..8] + RunTable[8..] == RunTable;
  }

  lemma ConstraintTableConsistent()
    ensures AllConsistent(ConstraintTable)
  {
  }

  /** Every entry of the full table is consistent. */
  lemma OptionTableConsistent()
    ensures AllConsistent(OptionTable)
  {
    RunTableConsistent();
    ConstraintTableConsistent();
    assert AllConsistent(AllocateTable) && AllConsistent(AttachTable) && AllConsistent(OtherTable);
    ConcatConsistent(RunTable, AllocateTable);
    ConcatConsistent(RunTable + AllocateTable, AttachTable);
    ConcatConsistent(RunTable + AllocateTable + AttachTable, ConstraintTable);
    ConcatConsistent(RunTable + AllocateTable + AttachTable + ConstraintTable, OtherTable);
  }

  /** Every entry a token can name is consistent. */
  lemma EntryOfTableConsistent(d: OptionDesc)
    requires d in OptionTable
    ensures EntryConsistent(d)
  {
    OptionTableConsistent();
    var i :| 0 <= i < |OptionTable| && OptionTable[i] == d;
  }

  /** The argument popt converted for an option. */
  datatype OptArg = NoArg | IntArg(n: int) | StrArg(s: string)

  /** One option as popt recognised it: the table entry and its argument. */
  datatype Token = Tok(desc: OptionDesc, arg: OptArg)

  /** The entries whose argument opt.c indexes at `strlen - 1`. */
  predicate NeedsText(t: Tag) {
    t == TOutput || t == TInput || t == TError || t == TRealmem || t == TTmpdisk
  }

  /** What `poptGetOptArg` hands over as text; "" stands for NULL. */
  function ArgText(a: OptArg): string {
    if a.StrArg? then a.s else ""
  }

  /** The argument popt converts has the kind its entry declares. */
  predicate ArgMatches(info: ArgInfo, a: OptArg) {
    match info
    case ArgNone => a == NoArg
    case ArgInt => a.IntArg?
    case ArgString => a.StrArg?
  }

  /**
   * A token popt can produce: its entry is in the table and its argument
   * has the entry's kind. Arguments opt.c reads at `strlen - 1` are also
   * non-empty, since an empty one is read out of bounds there.
   */
  predicate WellFormed(t: Token) {
    && t.desc in OptionTable
    && ArgMatches(t.desc.argInfo, t.arg)
    && TextPresent(t)
  }

  /** An argument opt.c reads at `strlen - 1` is not empty. */
  predicate TextPresent(t: Token) {
    NeedsText(t.desc.tag) ==> |ArgText(t.arg)| > 0
  }

  predicate AllWellFormed(ts: seq<Token>) {
    forall i :: 0 <= i < |ts| ==> WellFormed(ts[i])
  }

  /** What popt writes through the entry's `arg` pointer before returning its value. */
  function PoptStore(o: Opt, t: Token): Opt
  {
    match t.desc.target
    case NoTarget => o
    case IntTarget(f) => if t.arg.IntArg? then WriteInt(o, f, t.arg.n) else o
    case StrTarget(f) => if t.arg.StrArg? then WriteStr(o, f, t.arg.s) else o
    case FlagTarget(f) => WriteFlag(o, f)
  }

  /**
   * The fields popt stores that the two scans' own decisions read: the
   * allocate flag is set by an allocate token only, the attach id by an
   * attach token only.
   */
  lemma PoptStoreModeFields(o: Opt, t: Token)
    requires WellFormed(t)
    ensures PoptStore(o, t).allocate == (o.allocate || t.desc.tag == TAllocate)
    ensures PoptStore(o, t).attach == if t.desc.tag == TAttach then Some(ArgText(t.arg)) else o.attach
  {
    EntryOfTableConsistent(t.desc);
    match t.desc.target
    case NoTarget =>
    case IntTarget(f) => if t.arg.IntArg? { WriteIntFrame(o, f, t.arg.n); }
    case StrTarget(f) => if t.arg.StrArg? { WriteStrFrame(o, f, t.arg.s); }
    case FlagTarget(f) => WriteFlagFrame(o, f);
  }

  /** The number popt converted; 0 stands for an argument of another kind. */
  function ArgNumber(a: OptArg): int {
    if a.IntArg? then a.n else 0
  }

  /**
   * The counts, `mincpus` and the partition are stored by their own option
   * only, and then hold its argument.
   */
  lemma PoptStoreCounts(o: Opt, t: Token)
    requires WellFormed(t)
    ensures PoptStore(o, t).nprocs == if t.desc.tag == TNprocs then ArgNumber(t.arg) else o.nprocs
    ensures PoptStore(o, t).cpus == if t.desc.tag == TCpus then ArgNumber(t.arg) else o.cpus
    ensures PoptStore(o, t).nodes == if t.desc.tag == TNodes then ArgNumber(t.arg) else o.nodes
    ensures PoptStore(o, t).mincpus == if t.desc.tag == TMincpus then ArgNumber(t.arg) else o.mincpus
    ensures PoptStore(o, t).partition == if t.desc.tag == TPartition then Some(ArgText(t.arg)) else o.partition
  {
    EntryOfTableConsistent(t.desc);
    match t.desc.target
    case NoTarget =>
    case IntTarget(f) => if t.arg.IntArg? { WriteIntCounts(o, f, t.arg.n); }
    case StrTarget(f) => if t.arg.StrArg? { WriteStrCounts(o, f, t.arg.s); }
    case FlagTarget(f) => WriteFlagCounts(o, f);
  }

  /**
   * The fields the second switch sets itself are behind no table pointer:
   * popt never writes them.
   */
  lemma PoptStoreLeaves(o: Opt, t: Token)
    ensures SwitchFields(PoptStore(o, t)) == SwitchFields(o)
  {
    match t.desc.target
    case NoTarget =>
    case IntTarget(f) => if t.arg.IntArg? { WriteIntCounts(o, f, t.arg.n); }
    case StrTarget(f) => if t.arg.StrArg? { WriteStrCounts(o, f, t.arg.s); }
    case FlagTarget(f) => WriteFlagCounts(o, f);
  }

  /** The `type` of an `env_vars[]` entry. */
  datatype EnvKind = EnvDebug | EnvInt | EnvString | EnvInput | EnvOutput | EnvError | EnvDistrib

  /** One `env_vars_t`: variable, type and `arg` pointer. */
  datatype EnvVar = EnvVar(name: string, kind: EnvKind, arg: Target)

  const EnvVars: seq<EnvVar> := [
    EnvVar("SLURM_DEBUG", EnvDebug, NoTarget),
    EnvVar("SLURM_NPROCS", EnvInt, IntTarget(FNprocs)),
    EnvVar("SLURM_CPUS_PER_TASK", EnvInt, IntTarget(FCpus)),
    EnvVar("SLURM_NNODES", EnvInt, IntTarget(FNodes)),
    EnvVar("SLURM_PARTITION", EnvString, StrTarget(FPartition)),
    EnvVar("SLURM_STDINMODE", EnvInput, StrTarget(FStdinMode)),
    EnvVar("SLURM_STDOUTMODE", EnvOutput, StrTarget(FStdoutMode)),
    EnvVar("SLURM_STDERRMODE", EnvError, StrTarget(FStderrMode)),
    EnvVar("SLURM_DISTRIBUTION", EnvDistrib, NoTarget)
  ]

  /** What an environment entry writes: its field, `_debug`, or the distribution. */
  datatype Slot = FieldSlot(t: Target) | DebugSlot | DistributionSlot

  function SlotOf(e: EnvVar): Slot {
    match e.kind
    case EnvDebug => DebugSlot
    case EnvDistrib => DistributionSlot
    case _ => FieldSlot(e.arg)
  }

  /** The entries name different variables and write different places. */
  lemma EnvVarsDistinct()
    ensures forall i, j :: 0 <= i < j < |EnvVars| ==>
              EnvVars[i].name != EnvVars[j].name && SlotOf(EnvVars[i]) != SlotOf(EnvVars[j])
  {
  }
}
