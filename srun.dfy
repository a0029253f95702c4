/**
 * The stages as srun runs them: the globals of opt.c gathered in one object
 * whose methods update them step by step, each proved to leave the state
 * the corresponding function of the model describes.
 */
module Srun {
  import opened CString
  import opened Types
  import opened Validators
  import opened Tables
  import opened Defaults
  import opened Environment
  import opened Scan
  import opened Verify
  import opened Pipeline

  /**
   * `verify_iotype` on the caller's buffer: a trailing `%` is overwritten
   * with the terminator, so the name the caller goes on to read is the
   * first `len` characters. The classification and the name read back are
   * the ones `VerifyIoType` describes.
   */
  method VerifyIoTypeInPlace(p: array<char>) returns (io: IoType, len: nat)
    requires p.Length > 0
    modifies p
    ensures len <= p.Length
    ensures VerifyIoType(old(p[..])) == IoSpec(io, p[..len])
    ensures p[..len] == old(p[..len])
    ensures len < p.Length ==> len == p.Length - 1 && p[len] == '\0'
  {
    var end := p.Length - 1;
    if p[end] == '%' {
      io := IoPerTask;
      p[end] := '\0';
      len := end;
    } else if !StrNCaseEq(p[..], "normal", 6) {
      io, len := IoAll, p.Length;
    } else if !StrNCaseEq(p[..], "none", 4) {
      io, len := IoNone, p.Length;
    } else {
      io, len := IoNormal, p.Length;
    }
  }

  /** A fresh buffer holding `s`, as `strdup` makes it. */
  method Strdup(s: string) returns (p: array<char>)
    ensures fresh(p) && p[..] == s
  {
    p := new char[|s|](i requires 0 <= i < |s| => s[i]);
  }

  /** `strdup(arg)` followed by `verify_iotype` on the copy. */
  method NameAndType(a: string) returns (io: IoType, name: string)
    requires |a| > 0
    ensures VerifyIoType(a) == IoSpec(io, name)
  {
    var p := Strdup(a);
    var len;
    io, len := VerifyIoTypeInPlace(p);
    name := p[..len];
  }

  /**
   * The process-wide state of srun's option processing: the `opt` record,
   * `mode`, `_verbose`, `_debug`, `remote_argv`, and the environment
   * assignments made so far for an allocate-mode shell.
   */
  class Srun {
    var opt: Opt
    var mode: Mode
    var verbose: int
    var debug: int
    var remoteArgv: array<string>
    var exported: seq<Export>

    /** The state as a value. */
    function State(): Globals
      reads this, remoteArgv
    {
      Globals(opt, mode, verbose, debug, remoteArgv[..], exported)
    }

    constructor (g: Globals)
      ensures State() == g
    {
      opt, mode, verbose, debug, exported := g.opt, g.mode, g.verbose, g.debug, g.exported;
      remoteArgv := new string[|g.remoteArgv|](i requires 0 <= i < |g.remoteArgv| => g.remoteArgv[i]);
    }

    /**
     * `opt_default`, with the results of `getpwuid(getuid())` and `getcwd`
     * given (None for a failed call).
     */
    method OptDefault(pw: Option<Passwd>, cwd: Option<string>) returns (out: Outcome)
      modifies this
      ensures Run(State(), out) == Defaults.OptDefault(old(State()), pw, cwd)
    {
      if pw.Some? {
        opt := opt.(user := pw.value.name, uid := pw.value.uid);
      }
      if cwd.None? {
        return Fatal;
      }
      opt := opt.(cwd := cwd.value, progname := None);
      opt := opt.(nprocs := 1, cpus := 1, nodes := 0, partition := None);
      opt := opt.(jobName := "", distribution := DistBlock);
      opt := opt.(output := IoNormal, input := IoNormal, error := IoNormal,
                  ofname := None, ifname := None, efname := None);
      opt := opt.(coreFormat := "normal", labelio := false, overcommit := false, immediate := false);
      opt := opt.(allocate := false, attach := None, join := false);
      verbose, debug := 0, 0;
      opt := opt.(mincpus := -1, realmem := -1, tmpdisk := -1);
      opt := opt.(constraints := None, contiguous := false, nodelist := None);
      mode := ModeNormal;
      return Continue;
    }

    /**
     * `opt_env`: the walk over the table, each set variable written through
     * its entry. The result is the overlay `EnvResolved` describes field by
     * field.
     */
    method OptEnv(env: Environ)
      modifies this
      ensures State() == WithEnv(old(State()), env)
      ensures EnvState(opt, debug) == EnvResolved(EnvState(old(opt), old(debug)), env)
    {
      ghost var st0 := EnvState(opt, debug);
      var i := 0;
      while i < |EnvVars|
        invariant 0 <= i <= |EnvVars|
        invariant EnvState(opt, debug) == EnvUpTo(i, st0, env)
        invariant mode == old(mode) && verbose == old(verbose) && exported == old(exported)
        invariant remoteArgv == old(remoteArgv)
      {
        var e := EnvVars[i];
        if e.name in env {
          var val := env[e.name];
          match e.kind {
          case EnvString => opt := StoreStr(opt, e.arg, val);
          case EnvInt => opt := StoreInt(opt, e.arg, Strtol(val).value);
          case EnvDebug => debug := Strtol(val).value;
          case EnvInput => opt := StoreStr(opt, e.arg, val);
          case EnvOutput => opt := StoreStr(opt, e.arg, val);
          case EnvError => opt := StoreStr(opt, e.arg, val);
          case EnvDistrib =>
            var dt := VerifyDistType(val);
            if dt != DistUnknown {
              opt := opt.(distribution := dt);
            }
          }
        }
        i := i + 1;
      }
      EnvTableResolves(st0, env);
    }

    /**
     * `opt_verify` on the current state: the checks, the environment
     * assignments of allocate mode, and the count massage. `verified` is
     * its return value.
     */
    method OptVerify(nodesSet: bool, cpusSet: bool, procsSet: bool, given: Constraints -> bool)
      returns (verified: bool)
      modifies this
      ensures var v := Verify.OptVerify(old(opt), old(mode), remoteArgv.Length,
                                        nodesSet, cpusSet, procsSet, given);
        && opt == v.opt && verified == Verified(v) && exported == old(exported) + v.exports
      ensures mode == old(mode) && verbose == old(verbose) && debug == old(debug)
      ensures remoteArgv == old(remoteArgv)
    {
      verified := true;
      if mode == ModeAttach {
        if nodesSet || cpusSet || procsSet {
          verified := false;
        }
        if given(ConstraintsOf(opt)) {
          verified := false;
        }
      } else {
        if mode == ModeAllocate {
          exported := exported + AllocateModeEnv(opt);
        } else if remoteArgv.Length == 0 {
          verified := false;
        }
        if opt.nprocs <= 0 {
          verified := false;
        }
        if opt.cpus <= 0 {
          verified := false;
        }
        if opt.nodes < 0 {
          verified := false;
        }
        if nodesSet && !procsSet {
          opt := opt.(nprocs := opt.nodes);
        } else if nodesSet && procsSet {
          if opt.nprocs < opt.nodes {
            opt := opt.(nodes := opt.nprocs);
          }
        }
      }
    }

    /**
     * The first loop of `opt_args`: popt stores each option, then version,
     * attach and allocate are acted on. Ends the run early with the pass's
     * exit status.
     */
    method FirstPass(ts: seq<Token>) returns (exit: Option<int>)
      modifies this
      ensures Scan1(opt, mode, exit) == Pass1(ts, Scan1(old(opt), old(mode), None))
      ensures verbose == old(verbose) && debug == old(debug) && exported == old(exported)
      ensures remoteArgv == old(remoteArgv)
    {
      ghost var s0 := Scan1(opt, mode, None);
      var i := 0;
      while i < |ts|
        invariant 0 <= i <= |ts|
        invariant Pass1(ts, s0) == Pass1(ts[i..], Scan1(opt, mode, None))
        invariant verbose == old(verbose) && debug == old(debug) && exported == old(exported)
        invariant remoteArgv == old(remoteArgv)
      {
        ghost var cur := Scan1(opt, mode, None);
        var t := ts[i];
        assert Pass1(ts[i..], cur) == Pass1(ts[i + 1..], Step1(cur, t)) by {
          assert ts[i..][0] == t && ts[i..][1..] == ts[i + 1..];
        }
        opt := PoptStore(opt, t);
        match t.desc.tag {
        case TVersion =>
          return Some(0);
        case TAttach =>
          if opt.allocate {
            return Some(1);
          }
          mode := ModeAttach;
          opt := opt.(attach := Some(ArgText(t.arg)));
        case TAllocate =>
          if opt.attach.Some? {
            return Some(1);
          }
          mode := ModeAllocate;
        case _ =>
        }
        i := i + 1;
      }
      return None;
    }

    /** -v, -d, -n, -c and -N: a counter goes up or a flag is set. */
    method CountingStep(t: Token, procsSet: bool, nodesSet: bool, cpusSet: bool)
      returns (procsSet': bool, nodesSet': bool, cpusSet': bool, exit: Option<int>)
      requires TextPresent(t) && t.desc.tag in {TVerbose, TDebug, TNprocs, TCpus, TNodes}
      modifies this
      ensures Scan2(opt, verbose, debug, procsSet', nodesSet', cpusSet', exit)
              == Step2(Scan2(old(opt), old(verbose), old(debug), procsSet, nodesSet, cpusSet, None), t)
      ensures mode == old(mode) && exported == old(exported) && remoteArgv == old(remoteArgv)
    {
      Step2Counting(Scan2(opt, verbose, debug, procsSet, nodesSet, cpusSet, None), t);
      procsSet', nodesSet', cpusSet', exit := procsSet, nodesSet, cpusSet, None;
      opt := PoptStore(opt, t);
      match t.desc.tag {
      case TVerbose => verbose := verbose + 1;
      case TDebug => debug := debug + 1;
      case TNprocs => procsSet' := true;
      case TCpus => cpusSet' := true;
      case TNodes => nodesSet' := true;
      }
    }

    /** -o, -i and -e: a copy of the argument goes through `verify_iotype`. */
    method StreamStep(t: Token, procsSet: bool, nodesSet: bool, cpusSet: bool)
      returns (procsSet': bool, nodesSet': bool, cpusSet': bool, exit: Option<int>)
      requires TextPresent(t) && t.desc.tag in {TOutput, TInput, TError}
      modifies this
      ensures Scan2(opt, verbose, debug, procsSet', nodesSet', cpusSet', exit)
              == Step2(Scan2(old(opt), old(verbose), old(debug), procsSet, nodesSet, cpusSet, None), t)
      ensures mode == old(mode) && exported == old(exported) && remoteArgv == old(remoteArgv)
    {
      Step2Stream(Scan2(opt, verbose, debug, procsSet, nodesSet, cpusSet, None), t);
      procsSet', nodesSet', cpusSet', exit := procsSet, nodesSet, cpusSet, None;
      var a := ArgText(t.arg);
      var io, name := NameAndType(a);
      var o := PoptStore(opt, t);
      match t.desc.tag {
      case TOutput => opt := o.(ofname := Some(name), output := io);
      case TInput => opt := o.(ifname := Some(name), input := io);
      case TError => opt := o.(efname := Some(name), error := io);
      }
    }

    /** -m: the distribution is stored, then an unknown one exits with 1. */
    method DistributionStep(t: Token, procsSet: bool, nodesSet: bool, cpusSet: bool)
      returns (procsSet': bool, nodesSet': bool, cpusSet': bool, exit: Option<int>)
      requires TextPresent(t) && t.desc.tag == TDistrib
      modifies this
      ensures Scan2(opt, verbose, debug, procsSet', nodesSet', cpusSet', exit)
              == Step2(Scan2(old(opt), old(verbose), old(debug), procsSet, nodesSet, cpusSet, None), t)
      ensures mode == old(mode) && exported == old(exported) && remoteArgv == old(remoteArgv)
    {
      Step2Distrib(Scan2(opt, verbose, debug, procsSet, nodesSet, cpusSet, None), t);
      procsSet', nodesSet', cpusSet', exit := procsSet, nodesSet, cpusSet, None;
      opt := PoptStore(opt, t).(distribution := VerifyDistType(ArgText(t.arg)));
      if opt.distribution == DistUnknown {
        exit := Some(1);
      }
    }

    /** --mem and --tmp: the size is stored, then a negative one exits with 1. */
    method SizeStep(t: Token, procsSet: bool, nodesSet: bool, cpusSet: bool)
      returns (procsSet': bool, nodesSet': bool, cpusSet': bool, exit: Option<int>)
      requires TextPresent(t) && t.desc.tag in {TRealmem, TTmpdisk}
      modifies this
      ensures Scan2(opt, verbose, debug, procsSet', nodesSet', cpusSet', exit)
              == Step2(Scan2(old(opt), old(verbose), old(debug), procsSet, nodesSet, cpusSet, None), t)
      ensures mode == old(mode) && exported == old(exported) && remoteArgv == old(remoteArgv)
    {
      Step2Size(Scan2(opt, verbose, debug, procsSet, nodesSet, cpusSet, None), t);
      procsSet', nodesSet', cpusSet', exit := procsSet, nodesSet, cpusSet, None;
      var m := ToBytes(ArgText(t.arg));
      if t.desc.tag == TRealmem {
        opt := PoptStore(opt, t).(realmem := m);
      } else {
        opt := PoptStore(opt, t).(tmpdisk := m);
      }
      if m < 0 {
        exit := Some(1);
      }
    }

    /**
     * One option of the second loop of `opt_args`: popt stores it, then the
     * switch acts on its value. `procsSet`, `nodesSet` and `cpusSet` are the
     * loop's flags before the option; the results are the flags after it
     * and an exit status when one is due.
     */
    method SecondStep(t: Token, procsSet: bool, nodesSet: bool, cpusSet: bool)
      returns (procsSet': bool, nodesSet': bool, cpusSet': bool, exit: Option<int>)
      requires TextPresent(t)
      modifies this
      ensures Scan2(opt, verbose, debug, procsSet', nodesSet', cpusSet', exit)
              == Step2(Scan2(old(opt), old(verbose), old(debug), procsSet, nodesSet, cpusSet, None), t)
      ensures mode == old(mode) && exported == old(exported) && remoteArgv == old(remoteArgv)
    {
      match t.desc.tag {
      case TVerbose | TDebug | TNprocs | TCpus | TNodes =>
        procsSet', nodesSet', cpusSet', exit := CountingStep(t, procsSet, nodesSet, cpusSet);
      case TOutput | TInput | TError =>
        procsSet', nodesSet', cpusSet', exit := StreamStep(t, procsSet, nodesSet, cpusSet);
      case TDistrib =>
        procsSet', nodesSet', cpusSet', exit := DistributionStep(t, procsSet, nodesSet, cpusSet);
      case TRealmem | TTmpdisk =>
        procsSet', nodesSet', cpusSet', exit := SizeStep(t, procsSet, nodesSet, cpusSet);
      case TCddir =>
        Step2Cddir(Scan2(opt, verbose, debug, procsSet, nodesSet, cpusSet, None), t);
        procsSet', nodesSet', cpusSet', exit := procsSet, nodesSet, cpusSet, None;
        opt := PoptStore(opt, t).(cwd := ArgText(t.arg));
      case _ =>
        Step2StoredOnly(Scan2(opt, verbose, debug, procsSet, nodesSet, cpusSet, None), t);
        procsSet', nodesSet', cpusSet', exit := procsSet, nodesSet, cpusSet, None;
        opt := PoptStore(opt, t);
      }
    }

    /**
     * The second loop of `opt_args`, up to the end or the first exit.
     * Returns whether -n, -N and -c were given, and the exit status if one
     * is due.
     */
    method SecondPass(ts: seq<Token>) returns (procsSet: bool, nodesSet: bool, cpusSet: bool,
                                               exit: Option<int>)
      requires AllWellFormed(ts)
      modifies this
      ensures Scan2(opt, verbose, debug, procsSet, nodesSet, cpusSet, exit)
              == Pass2(ts, Scan2(old(opt), old(verbose), old(debug), false, false, false, None))
      ensures mode == old(mode) && exported == old(exported) && remoteArgv == old(remoteArgv)
    {
      ghost var s0 := Scan2(opt, verbose, debug, false, false, false, None);
      procsSet, nodesSet, cpusSet, exit := false, false, false, None;
      var i := 0;
      while i < |ts|
        invariant 0 <= i <= |ts| && exit == None
        invariant Pass2(ts, s0) == Pass2(ts[i..], Scan2(opt, verbose, debug, procsSet, nodesSet, cpusSet, None))
        invariant mode == old(mode) && exported == old(exported) && remoteArgv == old(remoteArgv)
      {
        ghost var cur := Scan2(opt, verbose, debug, procsSet, nodesSet, cpusSet, None);
        var t := ts[i];
        Pass2At(ts, i, cur);
        procsSet, nodesSet, cpusSet, exit := SecondStep(t, procsSet, nodesSet, cpusSet);
        if exit.Some? {
          return;
        }
        i := i + 1;
      }
      assert ts[i..] == [];
    }

    /** The copy of the positional leftovers into a new `remote_argv`. */
    method SetRemoteArgv(rest: seq<string>)
      modifies this
      ensures fresh(remoteArgv) && remoteArgv[..] == rest
      ensures opt == old(opt) && mode == old(mode) && verbose == old(verbose)
      ensures debug == old(debug) && exported == old(exported)
    {
      var argv := new string[|rest|];
      var i := 0;
      while i < |rest|
        invariant 0 <= i <= |rest|
        invariant argv[..i] == rest[..i]
        modifies argv
      {
        argv[i] := rest[i];
        i := i + 1;
      }
      remoteArgv := argv;
    }

    /** `opt_args`: both passes, the bad option, the remote argv and `opt_verify`. */
    method OptArgs(cl: CommandLine, given: Constraints -> bool) returns (out: Outcome)
      requires AllWellFormed(cl.tokens)
      modifies this
      ensures Run(State(), out) == Pipeline.OptArgs(old(State()), cl, given)
    {
      opt := opt.(progname := Some(cl.progname));
      var exit1 := FirstPass(cl.tokens);
      if exit1.Some? {
        return Exit(exit1.value);
      }
      var procsSet, nodesSet, cpusSet, exit2 := SecondPass(cl.tokens);
      if exit2.Some? || cl.badOption.Some? {
        return Exit(1);
      }
      SetRemoteArgv(cl.rest);
      var verified := OptVerify(nodesSet, cpusSet, procsSet, given);
      if !verified {
        return Exit(1);
      }
      return Continue;
    }

    /** `initialize_and_process_args`: defaults, environment, command line. */
    method InitializeAndProcessArgs(pw: Option<Passwd>, cwd: Option<string>, env: Environ,
                                    cl: CommandLine, given: Constraints -> bool)
      returns (out: Outcome)
      requires AllWellFormed(cl.tokens)
      modifies this
      ensures Run(State(), out) == Pipeline.InitializeAndProcessArgs(old(State()), pw, cwd, env, cl, given)
    {
      out := OptDefault(pw, cwd);
      if out != Continue {
        return;
      }
      OptEnv(env);
      out := OptArgs(cl, given);
    }
  }
}
