# srun option resolution, modelled in Dafny

This project models the option processing of SLURM's `srun` launcher, as
written in `trunk/src/srun/opt.c`. Before a job is launched,
`initialize_and_process_args` builds the global `opt` record and the globals
`mode`, `_verbose`, `_debug` and `remote_argv` in four stages:

1. `opt_default` writes a baseline record: one process with one cpu, no node
   count, block distribution, normal I/O, no constraint, normal mode.
2. `opt_env` walks the `env_vars[]` table and overlays the SLURM_* variables
   that are set.
3. `opt_args` reads the command line twice through popt. The first pass
   settles attach or allocate mode and rejects the two together; the second
   pass resolves the remaining options and notes whether -n, -N and -c were
   given. The positional leftovers become the remote argv.
4. `opt_verify` applies the rules of each mode, then reconciles the process
   and node counts.

The pure helpers `verify_iotype`, `verify_dist_type`, `to_bytes` and
`set_allocate_mode_env_vars` are functions. The stages are functions too, and
the lemmas are proved about them.

The same stages also appear as methods of the class `Srun.Srun`:

- Its fields are the globals.
- Its loops walk the environment table, the two popt passes and the copy of
  `remote_argv`.
- `VerifyIoTypeInPlace` truncates the caller's buffer as `verify_iotype` does.
- Each method's postcondition ties the new state to the matching function.

Modules, in dependency order:

- `CString`: the C library primitives the code relies on. These are
  `isdigit`, `isspace`, `toupper`/`tolower`, `strncasecmp(..) == 0` and a
  decimal `strtol` that returns the value and the end index.
- `Types`: the `opt` record, the run mode, the I/O and distribution
  enumerations, and writes through a table's field pointer.
- `Validators`: `verify_iotype`, `verify_dist_type`, `to_bytes` and
  `set_allocate_mode_env_vars`. The last returns the list of assignments it
  makes.
- `Tables`: the option values (`OPT_*`), the popt tables, `env_vars[]`, and
  the token abstraction of popt.
- `Defaults`: the global state, the stage outcomes (continue, `exit(n)`,
  `fatal`) and `opt_default`.
- `Environment`: `opt_env`.
- `Scan`: the two popt passes of `opt_args`.
- `Precedence`: which occurrence of an option wins. The last one decides its
  field, over what the defaults and the environment left there.
- `Verify`: `opt_verify`.
- `Pipeline`: `opt_args` as a whole and `initialize_and_process_args`.
- `Srun`: the class with the imperative methods.

popt is modelled by what it delivers, a `CommandLine`:

- The tokens it recognised up to the first bad option. Each token carries
  the table entry it matched and its converted argument.
- Whether a bad option ended the scan.
- The positional leftovers.

popt itself writes through the entry's `arg` pointer on every pass, before
the `switch` sees the value. Entries whose value is 0 are only stored
(`PoptStore`). The second `switch` is written field by field (`Scan.Switch2`):
each field it writes is written by one option only.

Where the comments in opt.c and the code disagree, the model follows the
code:

- `verify_iotype` tests `strncasecmp(..) != 0`. So a name that does not
  begin with "normal" selects `IO_ALL`, a name beginning with "normal"
  selects `IO_NONE`, and `IO_NORMAL` is never returned. The comment above the
  function promises `IO_NORMAL` for "normal".
- `to_bytes("abc")` is 0, not a negative error value.
- The comment above `to_bytes` (lines 322-325) promises a check that the
  text is numeric. But both negations can apply at once, and then they
  cancel: "5X" gives -5, while "5XX" gives 5. So `--mem 5XX` passes the
  negative check at line 688.
- `opt_env` stores the number `strtol` read from a variable even when it
  then logs the value as invalid.
- In `set_allocate_mode_env_vars` the per-task branch for stderr tests
  `opt.output`, not `opt.error`.
- `opt_verify` checks the counts before it reconciles them. So `-N 0` alone
  is accepted and leaves zero processes.
- `opt_verify` logs every violation and returns their conjunction. The model
  returns the list of violations in the order they are logged, and
  `Verified` is true when that list is empty.

## Model

| member | source | states |
|---|---|---|
| CString.StrNCaseEqMeaning | trunk/src/srun/opt.c:295-297 | `strncasecmp(a, b, n) == 0`, when `n` does not run past both strings, holds exactly when both have `n` characters that agree up to case |
| CString.StrNCaseEqPrefixOf | trunk/src/srun/opt.c:314-316 | comparing over `strlen(arg)` succeeds exactly when `arg` abbreviates the word, ignoring case (both directions) |
| CString.StrNCaseEqStartsWith | trunk/src/srun/opt.c:295-297 | comparing over the word's length succeeds exactly when the string begins with the word, ignoring case |
| CString.SkipSpace | trunk/src/srun/opt.c:340 | the white space `strtol` skips: every skipped character is a space and the one after is not |
| CString.DigitEnd | trunk/src/srun/opt.c:340 | the digit run `strtol` reads is all digits and maximal |
| CString.Strtol | trunk/src/srun/opt.c:340-343 | the end index never passes the string; no digits consumes nothing and gives 0; otherwise the end follows a digit and is not followed by one |
| CString.SkipSpaceAt | trunk/src/srun/opt.c:340 | a run of spaces followed by a non-space or the end is skipped exactly up to that point |
| CString.StrtolSigned | trunk/src/srun/opt.c:340-343 | spaces, an optional sign and digits followed by a non-digit or the end convert to the digits' decimal value, negated after `-`, and stop right after the digits |
| CString.StrtolNoDigits | trunk/src/srun/opt.c:340-343 | when no digit follows the spaces and the sign, nothing is converted: the value is 0 and the end index is 0 |
| CString.StrtolExamplesSigned | trunk/src/srun/opt.c:340-343 | "-5" converts to -5 and "+7" to 7, both ending at index 2 |
| CString.StrtolExamplesSpace | trunk/src/srun/opt.c:340-343 | " 12x" converts to 12 ending at index 3; " -x" converts nothing |
| CString.DigitEndAt | trunk/src/srun/opt.c:340 | a digit run bounded by a non-digit or the end ends exactly there |
| CString.StrtolDigitsThen | trunk/src/srun/opt.c:340-342 | digits followed by a non-digit convert to the digits' decimal value and stop right after them |
| CString.StrtolDigits | trunk/src/srun/opt.c:340-343 | a string of digits converts completely to its decimal value |
| Types.WriteIntFrame | trunk/src/srun/opt.c:123-132 | storing through an `int` field pointer leaves the allocate flag and the attach id unchanged |
| Types.WriteStrFrame | trunk/src/srun/opt.c:78-83 | storing through a string field pointer changes the attach id only through `&opt.attach`, and never the allocate flag |
| Types.WriteFlagFrame | trunk/src/srun/opt.c:86-91 | storing through a flag pointer sets the allocate flag only through `&opt.allocate`, and never the attach id |
| Types.WriteIntCounts | trunk/src/srun/opt.c:123-131 | storing `n` through an `int` field pointer sets exactly the field it points at (nprocs, cpus, nodes or mincpus), and leaves the partition and the fields the second switch writes alone |
| Types.WriteStrCounts | trunk/src/srun/opt.c:133-135 | storing through a string field pointer sets the partition exactly through `&opt.partition`, and leaves the counts and the fields the second switch writes alone |
| Types.WriteFlagCounts | trunk/src/srun/opt.c:86-91 | storing through a flag pointer leaves the counts, the partition and the fields the second switch writes alone |
| Validators.IoPerTaskStripsPercent | trunk/src/srun/opt.c:290-293 | the result is IO_PER_TASK exactly when the name ends in `%`, and then the name left behind plus `%` is the original |
| Validators.IoWithoutPercent | trunk/src/srun/opt.c:295-303 | without a trailing `%` the name is unchanged; IO_ALL exactly when it does not begin with "normal" in any case, IO_NONE exactly when it does |
| Validators.IoNormalUnreachable | trunk/src/srun/opt.c:295-303 | IO_NORMAL is never returned |
| Validators.IoTypeExamplesFiles | trunk/src/srun/opt.c:290-296 | "out.txt" is one file for all tasks; "out.txt%" is per task, named "out.txt" |
| Validators.IoTypeExamplesKeywords | trunk/src/srun/opt.c:295-298 | "none" selects IO_ALL and "normal" selects IO_NONE |
| Validators.IoTypeExamplesCase | trunk/src/srun/opt.c:295-298 | "NORMAL.log" selects IO_NONE, since the comparison ignores case |
| Validators.DistTypeMeaning | trunk/src/srun/opt.c:310-320 | CYCLIC exactly when the argument abbreviates "cyclic"; BLOCK exactly when it does not but abbreviates "block"; UNKNOWN exactly when it abbreviates neither |
| Validators.DistTypeExamples | trunk/src/srun/opt.c:314-319 | "CYCLIC", "c" and "" are cyclic; "Block" and "b" are block; "blk" and "cyclical" are unknown |
| Validators.ToBytesNumber | trunk/src/srun/opt.c:339-343 | a plain number is that many MB |
| Validators.ToBytesSuffix | trunk/src/srun/opt.c:345-363 | a number with one final non-digit: `M`/`m` keeps it, `G`/`g` multiplies it by 1024, anything else negates it |
| Validators.ToBytesTrailingJunk | trunk/src/srun/opt.c:339-367 | digits followed by two or more characters that begin with a non-digit give minus the final character's factor times the number |
| Validators.ToBytesWithoutDigits | trunk/src/srun/opt.c:345-366 | text without any digit gives 0, which the callers accept |
| Validators.ToBytesExamplesSuffixes | trunk/src/srun/opt.c:347-363 | "512M" is 512 and "2G" is 2048 |
| Validators.ToBytesExamplesOthers | trunk/src/srun/opt.c:339-366 | "100" is 100, "5X" is -5 and "abc" is 0 |
| Validators.ToBytesDoubleNegation | trunk/src/srun/opt.c:345-366 | "5X" gives -5, but "5XX" gives 5: the unknown suffix and the unconverted text each negate, so the size passes the negative check |
| Validators.AllocateModeEnvNames | trunk/src/srun/opt.c:376-400 | at most three assignments, each to SLURM_OUTPUT, SLURM_ERROR or SLURM_INPUT, no name twice |
| Validators.OutputExportRoundTrip | trunk/src/srun/opt.c:383-386 | a stdout argument classified by `verify_iotype` is exported as exactly the original argument, `%` included, unless it selected IO_NONE, in which case nothing is exported |
| Validators.InputExportRoundTrip | trunk/src/srun/opt.c:394-398 | the same round trip for stdin and SLURM_INPUT |
| Validators.ErrorExportFollowsOutput | trunk/src/srun/opt.c:388-392 | SLURM_ERROR is the stderr file for IO_ALL; otherwise it is exported, with `%`, exactly when stdout is per task |
| Tables.CodesDecode | trunk/src/srun/opt.c:37-70 | every option value the switch handles is positive and decodes back to its option; value 0 is not positive and decodes to nothing |
| Tables.RunTableQuarter1 | trunk/src/srun/opt.c:124-135 | the first four entries of `runTable` are consistent: each pointer fits the entry's argument kind, the count and partition fields are pointed at by their own options only, and each value-0 entry has a pointer |
| Tables.RunTableQuarter2 | trunk/src/srun/opt.c:136-147 | the next four entries of `runTable` are consistent in the same way |
| Tables.RunTableQuarter3 | trunk/src/srun/opt.c:148-159 | the next four entries of `runTable` are consistent in the same way |
| Tables.RunTableQuarter4 | trunk/src/srun/opt.c:160-168 | the remaining entries of `runTable` are consistent in the same way |
| Tables.RunTableConsistent | trunk/src/srun/opt.c:123-169 | every entry of `runTable` is consistent |
| Tables.ConstraintTableConsistent | trunk/src/srun/opt.c:94-117 | every entry of `constraintTable` is consistent |
| Tables.OptionTableConsistent | trunk/src/srun/opt.c:179-192 | every entry of the combined table is consistent; only `--allocate` points at `opt.allocate` and only `--attach` at `opt.attach` |
| Tables.EntryOfTableConsistent | trunk/src/srun/opt.c:179-192 | any entry a token can name is consistent |
| Tables.PoptStoreModeFields | trunk/src/srun/opt.c:78-91 | popt's store sets the allocate flag exactly for `--allocate`, sets the attach id to the argument exactly for `--attach`, and otherwise leaves both alone |
| Tables.PoptStoreCounts | trunk/src/srun/opt.c:94-135 | popt's store sets nprocs, cpus, nodes and mincpus to the number exactly for -n, -c, -N and --mincpus, and the partition to the text exactly for -p; otherwise each keeps its value |
| Tables.PoptStoreLeaves | trunk/src/srun/opt.c:94-169 | popt's store never touches the streams, file names, distribution, working directory or sizes, since no table entry points at them |
| Tables.EnvVarsDistinct | trunk/src/srun/opt.c:213-224 | the `env_vars[]` entries name different variables and write different places |
| Defaults.DefaultsArePlain | trunk/src/srun/opt.c:426-485 | with a known cwd: one process, one cpu, no nodes, block distribution, normal I/O, no constraints, neither allocating nor attaching, normal mode, quiet; the cwd is stored; a known user sets user and uid |
| Defaults.DefaultsForgetThePast | trunk/src/srun/opt.c:426-485 | the outcome depends on the earlier state only through the fields opt_default does not reset (remote argv, the no-allocate flag, the raw stream modes, and user and uid when `getpwuid` fails) |
| Defaults.DefaultsIdempotent | trunk/src/srun/opt.c:426-485 | applying the defaults twice is the same as applying them once |
| Environment.EnvEntry0 | trunk/src/srun/opt.c:214 | SLURM_DEBUG, when set, replaces `_debug` with its `strtol` value and changes nothing else (lines 523-531) |
| Environment.EnvEntry1 | trunk/src/srun/opt.c:215 | SLURM_NPROCS, when set, replaces `nprocs` with its `strtol` value and changes nothing else (lines 513-521) |
| Environment.EnvEntry2 | trunk/src/srun/opt.c:216 | SLURM_CPUS_PER_TASK likewise for `cpus` |
| Environment.EnvEntry3 | trunk/src/srun/opt.c:217 | SLURM_NNODES likewise for `nodes` |
| Environment.EnvEntry4 | trunk/src/srun/opt.c:218 | SLURM_PARTITION, when set, replaces the partition with its text and changes nothing else (lines 509-511) |
| Environment.EnvEntry5 | trunk/src/srun/opt.c:219 | SLURM_STDINMODE, when set, stores its text as the raw stdin mode and changes nothing else (lines 533-541) |
| Environment.EnvEntry6 | trunk/src/srun/opt.c:220 | SLURM_STDOUTMODE likewise for the raw stdout mode |
| Environment.EnvEntry7 | trunk/src/srun/opt.c:221 | SLURM_STDERRMODE likewise for the raw stderr mode |
| Environment.EnvEntry8 | trunk/src/srun/opt.c:222 | SLURM_DISTRIBUTION replaces the distribution only with a value `verify_dist_type` accepts (lines 544-555) |
| Environment.EnvTableResolves | trunk/src/srun/opt.c:492-570 | the whole walk gives the order-free overlay: each field the table writes depends only on its own variable, falling back to its old value when the variable is unset, and nothing else changes |
| Environment.EnvDistributionChecked | trunk/src/srun/opt.c:544-555 | a rejected SLURM_DISTRIBUTION leaves the distribution as it was; an accepted one replaces it |
| Environment.EnvNumberPrefixStored | trunk/src/srun/opt.c:515-521 | SLURM_NPROCS=12abc sets 12 processes, although the code reports the value as invalid |
| Environment.EnvEmptyKeeps | trunk/src/srun/opt.c:498-502 | with no SLURM_* variable set, the walk changes nothing |
| Scan.Step1Mode | trunk/src/srun/opt.c:600-618 | one first-pass option exits with 0 for `--version` and with 1 for the second of attach and allocate; otherwise the state stays consistent and the allocate flag and attach id record the option |
| Scan.Pass1StopsAt | trunk/src/srun/opt.c:600-618 | once the first pass decided to exit, the remaining options are never read |
| Scan.Pass1Clean | trunk/src/srun/opt.c:596-626 | without `--version` and without both attach and allocate, the first pass runs to the end; the allocate flag and the attach id are set exactly when their options occur, and the mode is the one they select |
| Scan.Pass1Conflicting | trunk/src/srun/opt.c:605-618 | with attach and allocate both present and no `--version`, the first pass exits with status 1 |
| Scan.Pass1Outcome | trunk/src/srun/opt.c:596-626 | from a fresh start with no `--version`: an exit happens exactly when both attach and allocate occur, always with status 1; otherwise the mode is ATTACH if attach occurred, else ALLOCATE if allocate occurred, else NORMAL |
| Scan.Pass1ConflictAt | trunk/src/srun/opt.c:605-618 | the exit happens at the second of the two conflicting options, whichever comes first |
| Scan.Pass1VersionAt | trunk/src/srun/opt.c:600-603 | a `--version` reached before any conflict ends the pass with status 0 |
| Scan.Step2StoredOnly | trunk/src/srun/opt.c:707-709 | an option the second switch does not handle is only stored by popt |
| Scan.Step2Exit | trunk/src/srun/opt.c:663-700 | one option of the second pass exits exactly when it is rejected (unknown distribution, negative size), and then with status 1 |
| Scan.Pass2Exit | trunk/src/srun/opt.c:636-711 | the second pass exits, always with status 1, exactly when one of its options is rejected |
| Scan.Step2Counters | trunk/src/srun/opt.c:640-646 | one option raises `_verbose` by one exactly for -v and `_debug` by one exactly for -d |
| Scan.Step2Flags | trunk/src/srun/opt.c:674-684 | one option sets `nprocs_set`, `cpus_set` or `nnodes_set` exactly when it is -n, -c or -N, and keeps a flag already set |
| Scan.Pass2Counts | trunk/src/srun/opt.c:631-711 | when nothing is rejected, `_verbose` and `_debug` grow by exactly the number of -v and -d options, and each `*_set` flag holds exactly when its option occurred |
| Precedence.LastArgCons | trunk/src/srun/opt.c:636-711 | the last occurrence, found from the front: in the tail if it occurs there, else the head if it carries the option |
| Precedence.LastArgIsLast | trunk/src/srun/opt.c:636-711 | an occurrence followed by no other of the same option is the last one |
| Precedence.LastArgAbsent | trunk/src/srun/opt.c:636-711 | without the option there is no last occurrence |
| Precedence.Step1Fields | trunk/src/srun/opt.c:596-626 | a first-pass option stores its count or partition as popt does, and leaves the fields the second switch writes alone |
| Precedence.Pass1Fields | trunk/src/srun/opt.c:596-626 | a first pass that runs to the end leaves nprocs, cpus, nodes, mincpus and the partition at the last option given for each, else as before, and the fields of the second switch unchanged |
| Precedence.Switch2Numbers | trunk/src/srun/opt.c:674-684 | the second switch only notes -n, -c and -N: the counts and the partition stay as popt stored them |
| Precedence.Step2Numbers | trunk/src/srun/opt.c:674-684 | one second-pass option sets nprocs, cpus, nodes, mincpus or the partition exactly when it is -n, -c, -N, --mincpus or -p; otherwise each keeps its value |
| Precedence.Switch2Streams | trunk/src/srun/opt.c:648-661 | -o, -i and -e set their stream and file name from `verify_iotype` on their text; every other option leaves the streams alone |
| Precedence.Step2Streams | trunk/src/srun/opt.c:648-661 | the same for one whole second-pass step, popt's store included |
| Precedence.Switch2Placement | trunk/src/srun/opt.c:663-705 | -m sets the distribution from `verify_dist_type`, --mem and --tmp their size from `to_bytes`, and -D the working directory; nothing else touches those fields |
| Precedence.Step2Placement | trunk/src/srun/opt.c:663-705 | the same for one whole second-pass step, popt's store included |
| Precedence.Pass2Numbers | trunk/src/srun/opt.c:636-711 | a second pass without rejection leaves nprocs, cpus, nodes and mincpus at the last -n, -c, -N and --mincpus, else where the first pass left them |
| Precedence.Pass2Streams | trunk/src/srun/opt.c:648-661 | a second pass without rejection leaves each stream as `verify_iotype` classified the last -o, -i or -e text, else as before |
| Precedence.Pass2Placement | trunk/src/srun/opt.c:663-705 | a second pass without rejection leaves the distribution, the working directory and the partition as the last -m, -D and -p gave them, else as before |
| Precedence.Pass2Sizes | trunk/src/srun/opt.c:686-700 | a second pass without rejection leaves `realmem` and `tmpdisk` at `to_bytes` of the last --mem and --tmp text, else as before |
| Verify.VerifyAccepts | trunk/src/srun/opt.c:749-832 | attach mode accepts exactly when no count and no constraint was given; the other modes accept exactly when (in normal mode) a remote command exists and nprocs > 0, cpus > 0 and nodes >= 0 as given |
| Verify.VerifyAttachKeeps | trunk/src/srun/opt.c:756-772 | attach mode changes no field of the record and assigns no environment variable |
| Verify.VerifyReconciles | trunk/src/srun/opt.c:813-827 | outside attach mode the record comes out reconciled |
| Verify.ReconcileEffect | trunk/src/srun/opt.c:813-827 | the reconciliation changes only nprocs and nodes; with -N, nodes never exceed nprocs afterwards; -N alone sets nprocs to nodes; -N with -n lowers nodes to nprocs when needed; without -N nothing changes |
| Verify.VerifyExports | trunk/src/srun/opt.c:776-783 | environment assignments are made in allocate mode only, and then exactly `set_allocate_mode_env_vars`'s |
| Verify.ZeroNodesAccepted | trunk/src/srun/opt.c:794-816 | `-N 0` alone with the default counts is accepted and leaves zero processes, since the checks precede the reconciliation |
| Verify.NormalNeedsCommand | trunk/src/srun/opt.c:784-789 | normal mode without a remote command always fails, and that is the first violation logged |
| Pipeline.BeforeArgs | trunk/src/srun/opt.c:253-262 | after the defaults and the environment: no allocate flag, no attach id, normal mode, `_verbose` 0 and `_debug` from SLURM_DEBUG (else 0) |
| Pipeline.StartsFresh | trunk/src/srun/opt.c:253-262 | the first pass starts with no exit due, neither attach nor allocate, and normal mode |
| Pipeline.AttachAllocateConflict | trunk/src/srun/opt.c:605-618 | naming both `--attach` and `--allocate`, in either order and without `--version`, ends srun with status 1 |
| Pipeline.VersionExits | trunk/src/srun/opt.c:600-603 | `--version` reached before any conflict ends srun with status 0 |
| Pipeline.UnknownCwdIsFatal | trunk/src/srun/opt.c:439-440 | a failed `getcwd` is fatal before the environment or the command line is read |
| Pipeline.AcceptedRun | trunk/src/srun/opt.c:575-743 | a run that gets through has the mode attach/allocate select, `_verbose` equal to the number of -v, `_debug` equal to SLURM_DEBUG (else 0) plus the number of -d, the remote argv equal to the leftovers in order, in normal mode a non-empty remote command, no bad option and no rejected option |
| Pipeline.RejectedExits | trunk/src/srun/opt.c:663-721 | without `--version`, a bad option or an option the second pass rejects (unknown distribution, negative size) ends srun with status 1 |
| Pipeline.ArgsRejected | trunk/src/srun/opt.c:663-721 | the same for `opt_args` from a fresh start |
| Pipeline.EnvBeforeArgs | trunk/src/srun/opt.c:253-262 | the command line starts from the counts SLURM_NPROCS, SLURM_CPUS_PER_TASK and SLURM_NNODES give over 1, 1 and 0, no minimum cpu count, the partition SLURM_PARTITION gives, the distribution SLURM_DISTRIBUTION gives over block, normal streams with no file names, the current directory and no sizes |
| Pipeline.ArgsCounts | trunk/src/srun/opt.c:575-743 | an accepted command line sets each count to the last -n, -c, -N or --mincpus, else the value before; -N without -n then sets nprocs to nodes, and with both, fewer processes than nodes lowers nodes (lines 813-827); the partition is the last -p, else as before |
| Pipeline.ArgsStreams | trunk/src/srun/opt.c:648-661 | an accepted command line leaves each stream as `verify_iotype` classified the last -o, -i or -e text, else as before |
| Pipeline.ArgsPlacement | trunk/src/srun/opt.c:663-705 | an accepted command line leaves the distribution, working directory and sizes as the last -m, -D, --mem and --tmp gave them, else as before |
| Pipeline.ArgsVerifyKeeps | trunk/src/srun/opt.c:736-739 | `opt_verify` on an accepted command line changes no field of the record but nprocs and nodes |
| Pipeline.ArgsExports | trunk/src/srun/opt.c:776-783 | an accepted command line appends the allocate-mode assignments of the final record in allocate mode, and nothing otherwise |
| Pipeline.AcceptedCounts | trunk/src/srun/opt.c:253-269 | the counts srun runs with: the last -n, -c, -N and --mincpus over SLURM_NPROCS, SLURM_CPUS_PER_TASK and SLURM_NNODES over the defaults, reconciled as `opt_verify` does; the partition is the last -p over SLURM_PARTITION |
| Pipeline.AcceptedStreams | trunk/src/srun/opt.c:253-269 | the streams srun runs with: `verify_iotype` of the last -o, -i and -e text, else normal streams with no file name |
| Pipeline.AcceptedPlacement | trunk/src/srun/opt.c:253-269 | the last -m, -D, --mem and --tmp decide the distribution, working directory and sizes; without them the distribution is SLURM_DISTRIBUTION's over block, the directory the current one, and no size |
| Pipeline.AcceptedOutputExport | trunk/src/srun/opt.c:648-650 | an accepted allocate-mode run exports as SLURM_OUTPUT exactly the last -o argument, `%` included (lines 383-386), unless it selected IO_NONE |
| Srun.VerifyIoTypeInPlace | trunk/src/srun/opt.c:284-304 | on the caller's buffer: the classification and the name read back (the first `len` characters) are `VerifyIoType`'s; only a trailing `%` is overwritten, with the terminator |
| Srun.NameAndType | trunk/src/srun/opt.c:649-650 | `strdup` then `verify_iotype` on the copy gives `VerifyIoType`'s classification and name |
| Srun.Srun.OptDefault | trunk/src/srun/opt.c:426-485 | the new state and outcome are `Defaults.OptDefault`'s: identity first, fatal on a failed `getcwd`, then every default |
| Srun.Srun.OptEnv | trunk/src/srun/opt.c:492-570 | the loop over the table leaves the state `WithEnv` describes, which is the overlay `EnvResolved` |
| Srun.Srun.OptVerify | trunk/src/srun/opt.c:749-832 | the record, the `verified` flag and the appended assignments are those of `Verify.OptVerify` on the state before, using the length of `remote_argv` |
| Srun.Srun.FirstPass | trunk/src/srun/opt.c:596-626 | the loop leaves the record, the mode and the exit status `Pass1` computes |
| Srun.Srun.CountingStep | trunk/src/srun/opt.c:640-684 | -v, -d, -n, -c and -N: the state after the option is `Step2`'s |
| Srun.Srun.StreamStep | trunk/src/srun/opt.c:648-661 | -o, -i and -e: the state after the option is `Step2`'s |
| Srun.Srun.DistributionStep | trunk/src/srun/opt.c:663-672 | -m: the state and exit status after the option are `Step2`'s |
| Srun.Srun.SizeStep | trunk/src/srun/opt.c:686-700 | `--mem` and `--tmp`: the state and exit status after the option are `Step2`'s |
| Srun.Srun.SecondStep | trunk/src/srun/opt.c:639-710 | one turn of the second loop leaves the state `Step2` describes |
| Srun.Srun.SecondPass | trunk/src/srun/opt.c:631-711 | the second loop leaves the record, the counters, the flags and the exit status `Pass2` computes |
| Srun.Srun.SetRemoteArgv | trunk/src/srun/opt.c:723-734 | `remote_argv` becomes a fresh array holding the leftovers in order; nothing else changes |
| Srun.Srun.OptArgs | trunk/src/srun/opt.c:575-743 | the new state and outcome are `Pipeline.OptArgs`'s |
| Srun.Srun.InitializeAndProcessArgs | trunk/src/srun/opt.c:253-269 | the new state and outcome are `Pipeline.InitializeAndProcessArgs`'s |

## Left out

- `getpwuid(getuid())` and `getcwd` are inputs; None stands for a failed call. `strncpy`'s truncation of the user name to `MAX_USERNAME` is not modelled.
- popt is modelled by the tokens it delivers. Not modelled: option parsing, aliases and `poptReadDefaultConfig`, the `POPT_AUTOHELP` entries (help and usage output), `poptBadOption`/`poptStrerror` messages, and the context calls (`poptGetContext`, `poptResetContext`, `poptFreeContext`).
- Process termination becomes an outcome value: `print_version` and `exit(0)`, the `exit(1)` calls, and `fatal` for a failed `getcwd`.
- `poptPrintUsage` and the messages of `error`, `info`, `debug2` and `argerror` are diagnostic output only. The debug listing (`opt_list`, `print_io_t_with_filename`, `print_constraints`, `print_commandline`) is also left out.
- `setenvf` is not called: the assignments are returned as a list of `Export`s, and a NULL file name formatted by it is `None`.
- `constraints_given`, `xbasename`, `format_io_t` and `format_distribution_t` are not part of this model. `constraints_given` is a parameter over the constraint fields. The base name of `argv[0]` is given in the command line.
- Memory management (`strdup`, `free`, `malloc`) is left out, apart from the fresh copy `verify_iotype` truncates and the fresh `remote_argv` array.
- Overflow is not modelled: not in `strtol`, not in `(int)` narrowing (`opt_env` and line 687), and not in `to_bytes`'s `long` results.
- The `env_vars[]` entries for the stream modes store a string through a pointer to an enum field. Here they store the raw text in separate fields (`stdinMode`, `stdoutMode`, `stderrMode`), not interpreted.
- `verify_iotype` and `to_bytes` read index `strlen - 1`. So empty arguments to -o, -i, -e, `--mem` and `--tmp` are excluded (`TextPresent`), because the code reads out of bounds for them.
- The counting loop over `rest` (727-728) is the length of the leftover sequence.
- The option values that no table uses (`OPT_BASENODE`, `OPT_CORE`, `OPT_CONST`, `OPT_JOIN`, `OPT_STEAL`, `OPT_VIRTMEM`, and `OPT_NONE`, `OPT_INT`, `OPT_STRING` as option values) are left out.
- Environment: the order independence of `env_vars[]` is stated through the order-free closed form `EnvResolved` and the distinct places the entries write (`EnvVarsDistinct`). It is not a lemma over reordered tables.
