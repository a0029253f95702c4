/**
 * The process-wide state srun's option processing writes (the `opt`
 * record, `mode`, `_verbose`, `_debug`, `remote_argv` and the environment
 * assignments made for an allocate-mode shell), how a stage ends, and the
 * first stage, `opt_default`.
 */
module Defaults {
  import opened Types
  import opened Validators

  /**
   * How a stage ends: it returns normally, it calls `exit` with a status,
   * or it calls `fatal` because the working directory is unknown.
   */
  datatype Outcome = Continue | Exit(status: int) | Fatal

  datatype Globals = Globals(opt: Opt, mode: Mode, verbose: int, debug: int,
                             remoteArgv: seq<string>, exported: seq<Export>)

  /** The state a stage leaves behind and how it ended. */
  datatype Run = Run(g: Globals, out: Outcome)

  /** The constraint fields when no constraint is given. */
  const NoConstraints := Constraints(-1, -1, -1, None, false, None)

  /**
   * The identity step of `opt_default`: a known user sets `opt.user` and
   * `opt.uid`; an unknown one only logs an error and leaves both alone.
   */
  function WithIdentity(o: Opt, pw: Option<Passwd>): Opt {
    if pw.Some? then o.(user := pw.value.name, uid := pw.value.uid) else o
  }

  /** The record `opt_default` leaves once the working directory is known. */
  function DefaultOpt(o: Opt, pw: Option<Passwd>, cwd: string): Opt {
    WithIdentity(o, pw).(
      cwd := cwd, progname := None,
      nprocs := 1, cpus := 1, nodes := 0, partition := None,
      jobName := "", distribution := DistBlock,
      output := IoNormal, input := IoNormal, error := IoNormal,
      ofname := None, ifname := None, efname := None,
      coreFormat := "normal", labelio := false, overcommit := false, immediate := false,
      allocate := false, attach := None, join := false,
      mincpus := -1, realmem := -1, tmpdisk := -1,
      constraints := None, contiguous := false, nodelist := None)
  }

  /**
   * `opt_default`, with `getpwuid(getuid())` and `getcwd` given as inputs
   * (None for a failed call). A failed `getcwd` is fatal after the identity
   * has been stored.
   */
  function OptDefault(g: Globals, pw: Option<Passwd>, cwd: Option<string>): Run {
    if cwd.None? then Run(g.(opt := WithIdentity(g.opt, pw)), Fatal)
    else Run(g.(opt := DefaultOpt(g.opt, pw, cwd.value), verbose := 0, debug := 0,
                mode := ModeNormal), Continue)
  }

  /**
   * The defaults describe a plain run: one process with one cpu, no node
   * count, block distribution, all streams as usual, no constraint, not
   * allocating nor attaching, normal mode and quiet.
   */
  lemma DefaultsArePlain(g: Globals, pw: Option<Passwd>, cwd: string)
    ensures var r := OptDefault(g, pw, Some(cwd));
      && r.out == Continue
      && r.g.opt.nprocs == 1 && r.g.opt.cpus == 1 && r.g.opt.nodes == 0
      && r.g.opt.distribution == DistBlock
      && r.g.opt.output == r.g.opt.input == r.g.opt.error == IoNormal
      && ConstraintsOf(r.g.opt) == NoConstraints
      && !r.g.opt.allocate && r.g.opt.attach == None
      && r.g.mode == ModeNormal && r.g.verbose == 0 && r.g.debug == 0
      && r.g.opt.cwd == cwd
      && (pw.Some? ==> r.g.opt.user == pw.value.name && r.g.opt.uid == pw.value.uid)
  {
  }

  /**
   * What the defaults do not reset: the remote argv, the environment, the
   * no-allocate flag and the raw stream modes, and the identity when
   * `getpwuid` fails. Two states that agree on those end up identical.
   */
  lemma DefaultsForgetThePast(g1: Globals, g2: Globals, pw: Option<Passwd>, cwd: Option<string>)
    requires g1.remoteArgv == g2.remoteArgv && g1.exported == g2.exported
    requires g1.opt.noAlloc == g2.opt.noAlloc
    requires g1.opt.stdinMode == g2.opt.stdinMode && g1.opt.stdoutMode == g2.opt.stdoutMode
    requires g1.opt.stderrMode == g2.opt.stderrMode
    requires pw.None? ==> g1.opt.user == g2.opt.user && g1.opt.uid == g2.opt.uid
    requires cwd.None? ==> g1 == g2
    ensures OptDefault(g1, pw, cwd) == OptDefault(g2, pw, cwd)
  {
  }

  /** Applying the defaults twice is the same as applying them once. */
  lemma DefaultsIdempotent(g: Globals, pw: Option<Passwd>, cwd: string)
    ensures OptDefault(OptDefault(g, pw, Some(cwd)).g, pw, Some(cwd)) == OptDefault(g, pw, Some(cwd))
  {
  }
}
