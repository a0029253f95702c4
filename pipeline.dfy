/**
 * `opt_args` and `initialize_and_process_args`: the stages composed in the
 * order srun runs them, defaults first, then the environment, then the
 * command line with its final verification.
 */
module Pipeline {
  import opened Types
  import opened Validators
  import opened Tables
  import opened Defaults
  import opened Environment
  import opened Scan
  import opened Verify
  import opened Precedence

  /**
   * The command line as popt delivers it: the program's base name, the
   * options it recognised (up to the first bad one), the bad option if
   * there was one, and the positional arguments left over.
   */
  datatype CommandLine = CommandLine(progname: string, tokens: seq<Token>,
                                     badOption: Option<string>, rest: seq<string>)

  /** The state the first pass starts from. */
  function Start1(g: Globals, cl: CommandLine): Scan1 {
    Scan1(g.opt.(progname := Some(cl.progname)), g.mode, None)
  }

  /** The state the second pass starts from: what the first left, no counts given. */
  function Start2(g: Globals, p1: Scan1): Scan2 {
    Scan2(p1.opt, g.verbose, g.debug, false, false, false, None)
  }

  /**
   * `opt_args`: first pass, second pass, the bad option (exit 1), the
   * remote argv copied from the leftovers, then `opt_verify` (exit 1 when
   * it fails).
   */
  function OptArgs(g: Globals, cl: CommandLine, given: Constraints -> bool): Run
    requires AllWellFormed(cl.tokens)
  {
    var p1 := Pass1(cl.tokens, Start1(g, cl));
    if p1.exit.Some? then Run(g.(opt := p1.opt, mode := p1.mode), Exit(p1.exit.value))
    else
      var p2 := Pass2(cl.tokens, Start2(g, p1));
      var g2 := g.(opt := p2.opt, mode := p1.mode, verbose := p2.verbose, debug := p2.debug);
      if p2.exit.Some? || cl.badOption.Some? then Run(g2, Exit(1))
      else
        var v := OptVerify(p2.opt, p1.mode, |cl.rest|, p2.nodesSet, p2.cpusSet, p2.procsSet, given);
        Run(g2.(opt := v.opt, remoteArgv := cl.rest, exported := g.exported + v.exports),
            if Verified(v) then Continue else Exit(1))
  }

  /** The state after `opt_env`. */
  function WithEnv(g: Globals, env: Environ): Globals {
    var e := EnvUpTo(|EnvVars|, EnvState(g.opt, g.debug), env);
    g.(opt := e.opt, debug := e.debug)
  }

  /**
   * `initialize_and_process_args`, with the identity, the working
   * directory, the environment and the command line as inputs.
   */
  function InitializeAndProcessArgs(g: Globals, pw: Option<Passwd>, cwd: Option<string>,
                                    env: Environ, cl: CommandLine, given: Constraints -> bool): Run
    requires AllWellFormed(cl.tokens)
  {
    var d := OptDefault(g, pw, cwd);
    if d.out != Continue then d else OptArgs(WithEnv(d.g, env), cl, given)
  }

  /**
   * What the command line sees of the defaults and the environment: no
   * attach, no allocate, normal mode, and the debug level SLURM_DEBUG gives.
   */
  lemma BeforeArgs(g: Globals, pw: Option<Passwd>, cwd: string, env: Environ)
    ensures var a := WithEnv(OptDefault(g, pw, Some(cwd)).g, env);
      && !a.opt.allocate && a.opt.attach.None? && a.mode == ModeNormal
      && a.verbose == 0 && a.debug == IntOr(env, "SLURM_DEBUG", 0)
  {
    var d := OptDefault(g, pw, Some(cwd)).g;
    EnvTableResolves(EnvState(d.opt, d.debug), env);
  }

  /** The first pass starts fresh after the defaults and the environment. */
  lemma StartsFresh(g: Globals, pw: Option<Passwd>, cwd: string, env: Environ, cl: CommandLine)
    ensures Fresh1(Start1(WithEnv(OptDefault(g, pw, Some(cwd)).g, env), cl))
  {
    BeforeArgs(g, pw, cwd, env);
  }

  /**
   * Naming both --attach and --allocate, in either order and without
   * --version, ends srun with status 1.
   */
  lemma AttachAllocateConflict(g: Globals, pw: Option<Passwd>, cwd: string,
                               env: Environ, cl: CommandLine, given: Constraints -> bool)
    requires AllWellFormed(cl.tokens)
    requires HasTag(cl.tokens, TAttach) && HasTag(cl.tokens, TAllocate)
    requires !HasTag(cl.tokens, TVersion)
    ensures InitializeAndProcessArgs(g, pw, Some(cwd), env, cl, given).out == Exit(1)
  {
    var a := WithEnv(OptDefault(g, pw, Some(cwd)).g, env);
    StartsFresh(g, pw, cwd, env, cl);
    Pass1Outcome(cl.tokens, Start1(a, cl));
  }

  /** --version reached before any conflict ends srun with status 0. */
  lemma VersionExits(g: Globals, pw: Option<Passwd>, cwd: string, env: Environ,
                     cl: CommandLine, given: Constraints -> bool, k: nat)
    requires AllWellFormed(cl.tokens) && k < |cl.tokens|
    requires cl.tokens[k].desc.tag == TVersion && !HasTag(cl.tokens[..k], TVersion)
    requires !(HasTag(cl.tokens[..k], TAttach) && HasTag(cl.tokens[..k], TAllocate))
    ensures InitializeAndProcessArgs(g, pw, Some(cwd), env, cl, given).out == Exit(0)
  {
    var a := WithEnv(OptDefault(g, pw, Some(cwd)).g, env);
    StartsFresh(g, pw, cwd, env, cl);
    Pass1VersionAt(cl.tokens, k, Start1(a, cl));
  }

  /** An unknown working directory stops srun before anything else is read. */
  lemma UnknownCwdIsFatal(g: Globals, pw: Option<Passwd>, env: Environ,
                          cl: CommandLine, given: Constraints -> bool)
    requires AllWellFormed(cl.tokens)
    ensures InitializeAndProcessArgs(g, pw, None, env, cl, given).out == Fatal
  {
  }

  /**
   * A run that gets through: the mode is the one attach and allocate
   * select, `_verbose` counts the -v options, `_debug` starts from
   * SLURM_DEBUG and counts the -d options, and the remote argv is the
   * leftover arguments in order.
   */
  lemma AcceptedRun(g: Globals, pw: Option<Passwd>, cwd: string, env: Environ,
                    cl: CommandLine, given: Constraints -> bool)
    requires AllWellFormed(cl.tokens)
    requires InitializeAndProcessArgs(g, pw, Some(cwd), env, cl, given).out == Continue
    ensures var r := InitializeAndProcessArgs(g, pw, Some(cwd), env, cl, given);
      && r.g.mode == (if HasTag(cl.tokens, TAttach) then ModeAttach
                      else if HasTag(cl.tokens, TAllocate) then ModeAllocate else ModeNormal)
      && r.g.verbose == Count(cl.tokens, TVerbose)
      && r.g.debug == IntOr(env, "SLURM_DEBUG", 0) + Count(cl.tokens, TDebug)
      && r.g.remoteArgv == cl.rest
      && (r.g.mode == ModeNormal ==> |cl.rest| > 0)
      && cl.badOption.None? && !AnyRejected(cl.tokens)
  {
    var a := WithEnv(OptDefault(g, pw, Some(cwd)).g, env);
    BeforeArgs(g, pw, cwd, env);
    var s1 := Start1(a, cl);
    var p1 := Pass1(cl.tokens, s1);
    if HasTag(cl.tokens, TVersion) {
      var k := FirstTag(cl.tokens, TVersion);
      if HasTag(cl.tokens[..k], TAttach) && HasTag(cl.tokens[..k], TAllocate) {
        PrefixWellFormed(cl.tokens, k);
        Pass1Outcome(cl.tokens[..k], s1);
        Pass1StopsAt(cl.tokens, k - 1, s1);
        assert false;
      }
      Pass1VersionAt(cl.tokens, k, s1);
      assert false;
    }
    Pass1Outcome(cl.tokens, s1);
    var s2 := Start2(a, p1);
    Pass2Exit(cl.tokens, s2);
    Pass2Counts(cl.tokens, s2);
    var p2 := Pass2(cl.tokens, s2);
    VerifyAccepts(p2.opt, p1.mode, |cl.rest|, p2.nodesSet, p2.cpusSet, p2.procsSet, given);
  }

  /**
   * A command line with a bad option, or with an option the second pass
   * rejects, ends srun with status 1, unless --version ends it first.
   */
  lemma RejectedExits(g: Globals, pw: Option<Passwd>, cwd: string, env: Environ,
                      cl: CommandLine, given: Constraints -> bool)
    requires AllWellFormed(cl.tokens) && !HasTag(cl.tokens, TVersion)
    requires cl.badOption.Some? || AnyRejected(cl.tokens)
    ensures InitializeAndProcessArgs(g, pw, Some(cwd), env, cl, given).out == Exit(1)
  {
    StartsFresh(g, pw, cwd, env, cl);
    ArgsRejected(WithEnv(OptDefault(g, pw, Some(cwd)).g, env), cl, given);
  }

  /** `opt_args` from a fresh start exits with 1 on a bad or a rejected option. */
  lemma ArgsRejected(a: Globals, cl: CommandLine, given: Constraints -> bool)
    requires AllWellFormed(cl.tokens) && !HasTag(cl.tokens, TVersion) && Fresh1(Start1(a, cl))
    requires cl.badOption.Some? || AnyRejected(cl.tokens)
    ensures OptArgs(a, cl, given).out == Exit(1)
  {
    var s1 := Start1(a, cl);
    Pass1Outcome(cl.tokens, s1);
    var p1 := Pass1(cl.tokens, s1);
    if p1.exit.None? {
      Pass2Exit(cl.tokens, Start2(a, p1));
    }
  }

  /**
   * What the command line starts from: the counts and the partition the
   * environment gives over the defaults, the distribution SLURM_DISTRIBUTION
   * gives over block, and the streams, the working directory and the sizes
   * as the defaults set them.
   */
  lemma EnvBeforeArgs(g: Globals, pw: Option<Passwd>, cwd: string, env: Environ)
    ensures var o := WithEnv(OptDefault(g, pw, Some(cwd)).g, env).opt;
      && o.nprocs == IntOr(env, "SLURM_NPROCS", 1)
      && o.cpus == IntOr(env, "SLURM_CPUS_PER_TASK", 1)
      && o.nodes == IntOr(env, "SLURM_NNODES", 0)
      && o.mincpus == -1
      && o.partition == StrOr(env, "SLURM_PARTITION", None)
      && SwitchFields(o) == SwitchPart(IoNormal, IoNormal, IoNormal, None, None, None,
                                       DistOr(env, DistBlock), cwd, -1, -1)
  {
    var d := OptDefault(g, pw, Some(cwd)).g;
    EnvTableResolves(EnvState(d.opt, d.debug), env);
  }

  /**
   * The counts of an accepted command line: each is the last -n, -c, -N or
   * --mincpus given, else what the record held before; then -N without -n
   * runs one process per node, and with both, fewer processes than nodes
   * lowers the node count. The partition is the last -p, else as before.
   */
  lemma ArgsCounts(a: Globals, cl: CommandLine, given: Constraints -> bool)
    requires AllWellFormed(cl.tokens) && OptArgs(a, cl, given).out == Continue
    ensures var o := OptArgs(a, cl, given).g.opt;
            var n := LastInt(cl.tokens, TNprocs, a.opt.nprocs);
            var nn := LastInt(cl.tokens, TNodes, a.opt.nodes);
      && o.nprocs == (if HasTag(cl.tokens, TNodes) && !HasTag(cl.tokens, TNprocs) then nn else n)
      && o.nodes == (if HasTag(cl.tokens, TNodes) && HasTag(cl.tokens, TNprocs) && n < nn then n else nn)
      && o.cpus == LastInt(cl.tokens, TCpus, a.opt.cpus)
      && o.mincpus == LastInt(cl.tokens, TMincpus, a.opt.mincpus)
      && o.partition == (var p := LastText(cl.tokens, TPartition); if p.Some? then p else a.opt.partition)
  {
    var ts := cl.tokens;
    var s1 := Start1(a, cl);
    var p1 := Pass1(ts, s1);
    assert p1.exit.None?;
    Pass1Fields(ts, s1);
    var s2 := Start2(a, p1);
    Pass2Exit(ts, s2);
    Pass2Counts(ts, s2);
    Pass2Numbers(ts, s2);
    Pass2Placement(ts, s2);
    var p2 := Pass2(ts, s2);
    if p1.mode == ModeAttach {
      VerifyAttachKeeps(p2.opt, |cl.rest|, p2.nodesSet, p2.cpusSet, p2.procsSet, given);
    } else {
      VerifyReconciles(p2.opt, p1.mode, |cl.rest|, p2.nodesSet, p2.cpusSet, p2.procsSet, given);
      ReconcileEffect(p2.opt, p2.nodesSet, p2.procsSet);
    }
  }

  /**
   * The streams of an accepted command line: each as the last -o, -i or -e
   * for it classified it, else as the record held it before.
   */
  lemma ArgsStreams(a: Globals, cl: CommandLine, given: Constraints -> bool)
    requires AllWellFormed(cl.tokens) && OptArgs(a, cl, given).out == Continue
    ensures var o := OptArgs(a, cl, given).g.opt;
      && StreamIs(o.output, o.ofname, LastText(cl.tokens, TOutput), a.opt.output, a.opt.ofname)
      && StreamIs(o.input, o.ifname, LastText(cl.tokens, TInput), a.opt.input, a.opt.ifname)
      && StreamIs(o.error, o.efname, LastText(cl.tokens, TError), a.opt.error, a.opt.efname)
  {
    var ts := cl.tokens;
    var s1 := Start1(a, cl);
    var p1 := Pass1(ts, s1);
    assert p1.exit.None?;
    Pass1Fields(ts, s1);
    var s2 := Start2(a, p1);
    Pass2Exit(ts, s2);
    Pass2Streams(ts, s2);
    ArgsVerifyKeeps(a, cl, given);
  }

  /**
   * The distribution, working directory and sizes of an accepted command
   * line: as the last -m, -D, --mem and --tmp gave them, else as the record
   * held them before.
   */
  lemma ArgsPlacement(a: Globals, cl: CommandLine, given: Constraints -> bool)
    requires AllWellFormed(cl.tokens) && OptArgs(a, cl, given).out == Continue
    ensures var o := OptArgs(a, cl, given).g.opt;
      && o.distribution == (var d := LastText(cl.tokens, TDistrib);
                            if d.Some? then VerifyDistType(d.value) else a.opt.distribution)
      && o.cwd == (var d := LastText(cl.tokens, TCddir); if d.Some? then d.value else a.opt.cwd)
      && o.realmem == SizeOr(LastText(cl.tokens, TRealmem), a.opt.realmem)
      && o.tmpdisk == SizeOr(LastText(cl.tokens, TTmpdisk), a.opt.tmpdisk)
  {
    var ts := cl.tokens;
    var s1 := Start1(a, cl);
    var p1 := Pass1(ts, s1);
    assert p1.exit.None?;
    Pass1Fields(ts, s1);
    var s2 := Start2(a, p1);
    Pass2Exit(ts, s2);
    Pass2Placement(ts, s2);
    Pass2Sizes(ts, s2);
    ArgsVerifyKeeps(a, cl, given);
  }

  /** `opt_verify` of an accepted command line changes no field but the two counts. */
  lemma ArgsVerifyKeeps(a: Globals, cl: CommandLine, given: Constraints -> bool)
    requires AllWellFormed(cl.tokens) && OptArgs(a, cl, given).out == Continue
    ensures var p1 := Pass1(cl.tokens, Start1(a, cl));
            var p2 := Pass2(cl.tokens, Start2(a, p1));
            var o := OptArgs(a, cl, given).g.opt;
      o == p2.opt.(nprocs := o.nprocs, nodes := o.nodes)
  {
    var p1 := Pass1(cl.tokens, Start1(a, cl));
    var p2 := Pass2(cl.tokens, Start2(a, p1));
    if p1.mode == ModeAttach {
      VerifyAttachKeeps(p2.opt, |cl.rest|, p2.nodesSet, p2.cpusSet, p2.procsSet, given);
    } else {
      VerifyReconciles(p2.opt, p1.mode, |cl.rest|, p2.nodesSet, p2.cpusSet, p2.procsSet, given);
      ReconcileEffect(p2.opt, p2.nodesSet, p2.procsSet);
    }
  }

  /**
   * The counts srun runs with: the last -n, -c, -N and --mincpus over
   * SLURM_NPROCS, SLURM_CPUS_PER_TASK and SLURM_NNODES over the defaults
   * (one process, one cpu, no node count, no minimum), reconciled as
   * `opt_verify` does; the partition is the last -p over SLURM_PARTITION.
   */
  lemma AcceptedCounts(g: Globals, pw: Option<Passwd>, cwd: string, env: Environ,
                       cl: CommandLine, given: Constraints -> bool)
    requires AllWellFormed(cl.tokens)
    requires InitializeAndProcessArgs(g, pw, Some(cwd), env, cl, given).out == Continue
    ensures var o := InitializeAndProcessArgs(g, pw, Some(cwd), env, cl, given).g.opt;
            var n := LastInt(cl.tokens, TNprocs, IntOr(env, "SLURM_NPROCS", 1));
            var nn := LastInt(cl.tokens, TNodes, IntOr(env, "SLURM_NNODES", 0));
      && o.nprocs == (if HasTag(cl.tokens, TNodes) && !HasTag(cl.tokens, TNprocs) then nn else n)
      && o.nodes == (if HasTag(cl.tokens, TNodes) && HasTag(cl.tokens, TNprocs) && n < nn then n else nn)
      && o.cpus == LastInt(cl.tokens, TCpus, IntOr(env, "SLURM_CPUS_PER_TASK", 1))
      && o.mincpus == LastInt(cl.tokens, TMincpus, -1)
      && o.partition == (var p := LastText(cl.tokens, TPartition);
                         if p.Some? then p else StrOr(env, "SLURM_PARTITION", None))
  {
    EnvBeforeArgs(g, pw, cwd, env);
    ArgsCounts(WithEnv(OptDefault(g, pw, Some(cwd)).g, env), cl, given);
  }

  /** The streams srun runs with: the last -o, -i and -e, else normal streams with no file name. */
  lemma AcceptedStreams(g: Globals, pw: Option<Passwd>, cwd: string, env: Environ,
                        cl: CommandLine, given: Constraints -> bool)
    requires AllWellFormed(cl.tokens)
    requires InitializeAndProcessArgs(g, pw, Some(cwd), env, cl, given).out == Continue
    ensures var o := InitializeAndProcessArgs(g, pw, Some(cwd), env, cl, given).g.opt;
      && StreamIs(o.output, o.ofname, LastText(cl.tokens, TOutput), IoNormal, None)
      && StreamIs(o.input, o.ifname, LastText(cl.tokens, TInput), IoNormal, None)
      && StreamIs(o.error, o.efname, LastText(cl.tokens, TError), IoNormal, None)
  {
    EnvBeforeArgs(g, pw, cwd, env);
    ArgsStreams(WithEnv(OptDefault(g, pw, Some(cwd)).g, env), cl, given);
  }

  /**
   * The distribution, working directory and sizes srun runs with: the last
   * -m, -D, --mem and --tmp, else the distribution SLURM_DISTRIBUTION gives
   * over block, the current directory and no size.
   */
  lemma AcceptedPlacement(g: Globals, pw: Option<Passwd>, cwd: string, env: Environ,
                          cl: CommandLine, given: Constraints -> bool)
    requires AllWellFormed(cl.tokens)
    requires InitializeAndProcessArgs(g, pw, Some(cwd), env, cl, given).out == Continue
    ensures var o := InitializeAndProcessArgs(g, pw, Some(cwd), env, cl, given).g.opt;
      && o.distribution == (var d := LastText(cl.tokens, TDistrib);
                            if d.Some? then VerifyDistType(d.value) else DistOr(env, DistBlock))
      && o.cwd == (var d := LastText(cl.tokens, TCddir); if d.Some? then d.value else cwd)
      && o.realmem == SizeOr(LastText(cl.tokens, TRealmem), -1)
      && o.tmpdisk == SizeOr(LastText(cl.tokens, TTmpdisk), -1)
  {
    EnvBeforeArgs(g, pw, cwd, env);
    ArgsPlacement(WithEnv(OptDefault(g, pw, Some(cwd)).g, env), cl, given);
  }

  /**
   * An accepted allocate-mode run hands the allocate shell exactly the -o
   * argument it was given last: `verify_iotype` strips a `%` and
   * `set_allocate_mode_env_vars` puts it back, unless the name classified
   * as "none".
   */
  lemma AcceptedOutputExport(g: Globals, pw: Option<Passwd>, cwd: string, env: Environ,
                             cl: CommandLine, given: Constraints -> bool, arg: string)
    requires AllWellFormed(cl.tokens) && HasTag(cl.tokens, TAllocate) && !HasTag(cl.tokens, TAttach)
    requires LastText(cl.tokens, TOutput) == Some(arg)
    requires InitializeAndProcessArgs(g, pw, Some(cwd), env, cl, given).out == Continue
    ensures var r := InitializeAndProcessArgs(g, pw, Some(cwd), env, cl, given).g;
      && r.exported == g.exported + AllocateModeEnv(r.opt)
      && Exported(AllocateModeEnv(r.opt), "SLURM_OUTPUT")
           == if r.opt.output == IoNone then None else Some(Some(arg))
  {
    AcceptedRun(g, pw, cwd, env, cl, given);
    var a := WithEnv(OptDefault(g, pw, Some(cwd)).g, env);
    assert a.exported == g.exported;
    var r := OptArgs(a, cl, given).g;
    assert InitializeAndProcessArgs(g, pw, Some(cwd), env, cl, given).g == r;
    ArgsStreams(a, cl, given);
    ArgsExports(a, cl, given);
    OutputExportRoundTrip(r.opt, arg);
  }

  /** An accepted command line appends the allocate-mode assignments, made from the final record, and nothing else. */
  lemma ArgsExports(a: Globals, cl: CommandLine, given: Constraints -> bool)
    requires AllWellFormed(cl.tokens) && OptArgs(a, cl, given).out == Continue
    ensures var r := OptArgs(a, cl, given).g;
      r.exported == a.exported + if r.mode == ModeAllocate then AllocateModeEnv(r.opt) else []
  {
    ArgsVerifyKeeps(a, cl, given);
    var p1 := Pass1(cl.tokens, Start1(a, cl));
    var p2 := Pass2(cl.tokens, Start2(a, p1));
    VerifyExports(p2.opt, p1.mode, |cl.rest|, p2.nodesSet, p2.cpusSet, p2.procsSet, given);
    assert AllocateModeEnv(OptArgs(a, cl, given).g.opt) == AllocateModeEnv(p2.opt);
  }

  /** The index of the first token carrying `tag`. */
  function FirstTag(ts: seq<Token>, tag: Tag): (k: nat)
    requires HasTag(ts, tag)
    ensures k < |ts| && ts[k].desc.tag == tag && !HasTag(ts[..k], tag)
  {
    if ts[0].desc.tag == tag then
      assert ts[..0] == [];
      0
    else
      HasTagCons(ts, tag);
      var k := FirstTag(ts[1..], tag);
      assert !HasTag(ts[..k + 1], tag) by {
        assert ts[..k + 1][0] == ts[0];
        assert ts[..k + 1][1..] == ts[1..][..k];
        HasTagCons(ts[..k + 1], tag);
      }
      k + 1
  }

  lemma PrefixWellFormed(ts: seq<Token>, k: nat)
    requires k <= |ts| && AllWellFormed(ts)
    ensures AllWellFormed(ts[..k])
  {
    forall i | 0 <= i < k ensures WellFormed(ts[..k][i]) { assert ts[..k][i] == ts[i]; }
  }
}
